# World store and entity model

This project models two parts of a simulated-world backend in Dafny. Their properties are proved.

The first part is the relational world store. There are eight tables: worlds, world_tiles,
world_maps, agents, relationships, event_store, snapshots and agent_snapshots. The model
captures what the database guarantees about them, and the defaults SQLAlchemy fills in:

- primary keys;
- the unique constraints `uq_events_tick_seq` on (world, tick, seq_in_tick) and
  `uq_snapshot_world_tick` on (world, tick);
- the check constraint `ck_events_seq_nonneg`;
- the foreign keys, with their `ON DELETE CASCADE` and `ON DELETE SET NULL` rules;
- the column defaults. These are SQLAlchemy client-side `default=` values, not DEFAULT clauses
  of the tables: SQLAlchemy supplies them when an insert through the ORM leaves the column out.

The second part is the entity objects of the simulation: `Entity`, `InteractiveEntity` and
`Agent`, and the agent's four-direction `move`.

Layout:

- `wrappers.dfy`: `Option` (a nullable column), `Result` and `Outcome`.
- `schema.dfy` (module `Schema`): one row datatype per table, and the column defaults as
  `New…` constructors. `Tables` holds the eight tables, each as a map keyed by its primary key.
  `Valid` collects every declared constraint. `SameWorldRefs` states that every reference stays
  inside the citing row's own world, a rule that is intended but not enforced by the schema.
- `inserts.dfy` (module `Inserts`): one INSERT per table. A row is stored, or the statement is
  rejected with the violated constraint and nothing changes. Each table has a lemma saying an
  insert is accepted exactly when the key is free and the tables with the new row are `Valid`.
- `deletes.dfy` (module `Deletes`): `Remove` deletes a set of parent rows and applies every
  ON DELETE rule. DELETE from worlds, agents, event_store and snapshots are built on it.
  Each delete states which rows survive and with which contents: CASCADE removes the referencing
  rows, SET NULL clears exactly the references to deleted rows, and every other row is kept as it
  was. Lemmas prove that each delete keeps `Valid`.
- `statements.dfy` (module `Statements`): any sequence of those statements, run from a valid
  store, keeps every constraint.
- `store.dfy` (module `Store`): class `WorldStore` has one map field per table. Its insert
  methods check before adding, and its delete methods rewrite the dependent tables in place.
  Each method is proved to produce the outcome and new state that `Inserts`/`Deletes` prescribe.
- `entities.dfy` (module `Entities`): the three entity classes with mutable fields, and
  `Agent.Move`.

Modelling choices:

- Ids are caller-supplied opaque numbers. JSON documents are opaque text. Blob bytes are
  `seq<Byte>`. Float columns are carried as `real` and never computed on.
- When an insert breaks several constraints at once, the error reported follows PostgreSQL's
  order: the check constraint first, then the primary key, then unique constraints, then
  foreign keys in column order.
- The foreign-key check on `caused_by_event_id` runs after the row is in place. So an event
  may name itself as its cause.
- Each statement is its own transaction.

Intended rules that the schema does not enforce. The model follows the schema:

- Events are meant to be deleted only together with their world. The schema also allows a
  direct DELETE, which sets `caused_by_event_id` to NULL in dependent events (`DeleteEvent`).
- Agents are meant to be deleted only together with their world. The schema also allows a
  direct DELETE, handled by `DeleteAgent`.
- `seq_in_tick` is meant to be assigned by the store. The schema only defaults it to 0 and
  accepts any non-negative value the caller gives.
- Relationships, event actors and targets, causal parents and agent snapshots are meant to
  stay within one world. The schema checks only that the referenced row exists. Deleting a
  world therefore also removes or nulls rows of other worlds that refer into it: see
  `CrossWorldRelationshipIsCascaded` and the event clause of `DeleteWorld`. "Other worlds are
  unchanged" holds only under `SameWorldRefs`: see `DeleteWorldKeepsOtherWorlds`.
- A world's status is meant to be one of CREATED, RUNNING, PAUSED and ARCHIVED. The schema
  stores any string and defaults it to `CREATED`.
- A causal parent's tick is meant to be at most the event's tick. The schema has no such
  check, and the model adds none.

## Model

| member | source | states |
|---|---|---|
| Schema.NewWorld | infra/database/models.py:94-96 | omitted current_tick, tick_unit_ms and status become 0, 60000 and "CREATED"; given values and the other columns are stored as given |
| Schema.NewWorldTile | infra/database/models.py:140-143 | omitted is_blocked, resource_type and resource_amount become false, 0 and 0; the key (world_id, x, y) is as given |
| Schema.NewWorldMap | infra/database/models.py:164 | an omitted format becomes "zstd+msgpack" |
| Schema.NewAgent | infra/database/models.py:191-196 | omitted sex, birth_tick, x and y become 0; death_tick, state and personality are stored as given |
| Schema.NewRelationship | infra/database/models.py:229-234 | the four scores default to 0.0 and last_tick to 0; the key (world_id, a, b) is as given |
| Schema.NewEventStore | infra/database/models.py:257-277 | an omitted seq_in_tick becomes 0 and an omitted schema_version becomes 1; every other column is stored as given |
| Inserts.InsertWorld | infra/database/models.py:88 | a duplicate world_id is a primary-key violation; on success only the worlds table gains the row |
| Inserts.InsertWorldTile | infra/database/models.py:135-137 | a second tile at (world_id, x, y) is a primary-key violation; an unknown world is rejected; on success only that tile is added |
| Inserts.InsertWorldMap | infra/database/models.py:163 | a second map for a world is a primary-key violation; an unknown world is rejected |
| Inserts.InsertAgent | infra/database/models.py:187-188 | a duplicate agent_id is a primary-key violation; an agent of an unknown world is a foreign-key violation on world_id |
| Inserts.InsertRelationship | infra/database/models.py:225-227 | a second row for the ordered (world_id, a, b) is a primary-key violation; an unknown world or agent is rejected |
| Inserts.InsertEvent | infra/database/models.py:254-286 | negative seq_in_tick fails ck_events_seq_nonneg; a taken (world_id, tick, seq_in_tick) fails uq_events_tick_seq; an unknown world, actor, target or cause is rejected; on success only the event is added |
| Inserts.InsertSnapshot | infra/database/models.py:306-327 | a taken (world_id, tick) fails uq_snapshot_world_tick; an unknown world is rejected; on success only the snapshot is added |
| Inserts.InsertAgentSnapshot | infra/database/models.py:337-338 | a second capture of (snapshot_id, agent_id) is a primary-key violation; an unknown snapshot or agent is rejected |
| Inserts.InsertWorldAccepted | infra/database/models.py:88 | from valid tables, the insert succeeds iff the id is free and the result satisfies every constraint |
| Inserts.InsertWorldTileAccepted | infra/database/models.py:135-137 | the tile insert succeeds iff its key is free and the tables with it are valid |
| Inserts.InsertWorldMapAccepted | infra/database/models.py:163 | the map insert succeeds iff the world has no map and the tables with it are valid |
| Inserts.InsertAgentAccepted | infra/database/models.py:188 | the agent insert succeeds iff its id is free and the tables with it are valid |
| Inserts.InsertRelationshipAccepted | infra/database/models.py:225-227 | the relationship insert succeeds iff its key is free and the tables with it are valid |
| Inserts.InsertEventAccepted | infra/database/models.py:254-286 | the event insert succeeds iff its id is free and the tables with it satisfy the check, the unique constraint and every foreign key |
| Inserts.InsertSnapshotAccepted | infra/database/models.py:306-327 | the snapshot insert succeeds iff its id is free and the tables with it are valid, including one snapshot per (world_id, tick) |
| Inserts.InsertAgentSnapshotAccepted | infra/database/models.py:337-338 | the capture insert succeeds iff its key is free and both parents exist |
| Inserts.OmittedSeqDefaultsToZero | infra/database/models.py:257 | an event built without seq_in_tick has 0 there, never fails the check constraint, and if stored is stored with 0 |
| Inserts.SecondSnapshotRejected | infra/database/models.py:327 | a snapshot at an already captured (world_id, tick) is rejected, whatever its snapshot_id |
| Inserts.ReversedRelationshipIsSeparateRow | infra/database/models.py:221-227 | with (w, a, b) stored, (w, b, a) is accepted as a separate row and both are kept: no deduplication |
| Deletes.Remove | infra/database/models.py:135-338 | after deleting a set of parent rows, every surviving row was there before with the same contents (events aside) and none refers to a deleted parent; rows without such a reference are kept; in a surviving event each of actor, target and cause is NULL if it named a deleted row and unchanged otherwise, and every other column is kept |
| Deletes.DeleteWorld | infra/database/models.py:103-117 | the world disappears; a tile, map, agent, event or snapshot survives iff it belongs to another world; a relationship or agent snapshot survives iff neither its world, snapshot nor agents belong to the deleted world; surviving rows keep their contents, except that an event (of any world) whose actor, target or cause was a row of the deleted world has that column set to NULL |
| Deletes.DeleteWorldKeepsValid | infra/database/models.py:135-338 | deleting a world from valid tables leaves every constraint satisfied (no dangling reference remains) |
| Deletes.DeleteWorldKeepsOtherWorlds | infra/database/models.py:103-117 | when no row refers across worlds, every row of every other world is kept exactly as it was |
| Deletes.CrossWorldRelationshipIsCascaded | infra/database/models.py:225-227 | a valid store where a world-2 relationship links world-1 agents loses that relationship when world 1 is deleted |
| Deletes.DeleteMissingWorldIsNoOp | infra/database/models.py:88-338 | deleting a world id that is not stored leaves valid tables unchanged |
| Deletes.DeleteAgent | infra/database/models.py:226-338 | the agent disappears, with every relationship where it is a or b and every capture of it; no event is deleted, and in each event only an actor or target equal to the agent becomes NULL; surviving relationships and captures and the other tables are unchanged |
| Deletes.DeleteAgentKeepsValid | infra/database/models.py:226-227 | deleting an agent from valid tables leaves every constraint satisfied |
| Deletes.DeleteEvent | infra/database/models.py:273-275 | exactly that event disappears, no remaining event names it as cause, and no other table changes |
| Deletes.DeleteEventClearsCause | infra/database/models.py:273-275 | in every other event only a caused_by equal to the deleted event becomes NULL |
| Deletes.DeleteEventKeepsValid | infra/database/models.py:273-275 | deleting an event from valid tables leaves every constraint satisfied |
| Deletes.DeleteSnapshot | infra/database/models.py:337 | the snapshot disappears with exactly its agent snapshots; other captures and tables are unchanged |
| Deletes.DeleteSnapshotKeepsValid | infra/database/models.py:337 | deleting a snapshot from valid tables leaves every constraint satisfied |
| Statements.RunKeepsValid | infra/database/models.py:135-338 | any sequence of inserts and deletes, run from valid tables, ends in valid tables |
| Statements.EventLogConstraintsAlwaysHold | infra/database/models.py:285-286 | in every store reachable from empty tables, every event has seq_in_tick >= 0, no two events share (world, tick, seq_in_tick), and no two snapshots share (world, tick) |
| Store.WorldStore.InsertWorld | infra/database/models.py:82-96 | performs InsertWorld on the fields: same outcome, the row added on success, nothing changed on failure |
| Store.WorldStore.InsertWorldTile | infra/database/models.py:132-143 | performs InsertWorldTile on the fields, unchanged state on rejection |
| Store.WorldStore.InsertWorldMap | infra/database/models.py:160-170 | performs InsertWorldMap on the fields, unchanged state on rejection |
| Store.WorldStore.InsertAgent | infra/database/models.py:184-199 | performs InsertAgent on the fields, unchanged state on rejection |
| Store.WorldStore.InsertRelationship | infra/database/models.py:218-235 | performs InsertRelationship on the fields, unchanged state on rejection |
| Store.WorldStore.InsertEvent | infra/database/models.py:250-292 | performs InsertEvent on the fields: a duplicate (world, tick, seq) or negative seq leaves the event table unchanged |
| Store.WorldStore.InsertSnapshot | infra/database/models.py:302-328 | performs InsertSnapshot on the fields: a second snapshot at (world, tick) leaves the original unchanged |
| Store.WorldStore.InsertAgentSnapshot | infra/database/models.py:334-340 | performs InsertAgentSnapshot on the fields, unchanged state on rejection |
| Store.WorldStore.Cascade | infra/database/models.py:135-338 | for a set of parents closed under CASCADE on world_id, overwrites every table with Remove of the old state and keeps the store valid |
| Store.WorldStore.DeleteWorld | infra/database/models.py:103-117 | rewrites every table in place to DeleteWorld of the old state and keeps the store valid |
| Store.WorldStore.DeleteAgent | infra/database/models.py:226-338 | rewrites the tables in place to DeleteAgent of the old state and keeps the store valid |
| Store.WorldStore.DeleteEvent | infra/database/models.py:273-275 | rewrites the tables in place to DeleteEvent of the old state and keeps the store valid |
| Store.WorldStore.DeleteSnapshot | infra/database/models.py:337 | rewrites the tables in place to DeleteSnapshot of the old state and keeps the store valid |
| Entities.Entity.constructor | model/test.py:9-13 | stores entity_id, name, x and y as given |
| Entities.InteractiveEntity.constructor | model/test.py:23-25 | stores durability and the four base fields as given |
| Entities.Agent.constructor | model/test.py:40-45 | stores all eight arguments as given |
| Entities.Agent.Move | model/test.py:47-59 | "up"/"down" add/subtract 1 from y, "left"/"right" subtract/add 1 to x, any other string leaves the position; the actor is unused and only x and y may change |
| Entities.ReturnTrip | model/test.py:52-59 | a move followed by the opposite move (up/down, left/right) returns the agent to its starting position |

## Left out

- `created_at` timestamps (`server_default=func.now()`) are not modelled: they come from the database clock.
- `uuid.uuid4` id generation is not modelled: ids are supplied by the caller.
- Column types and widths are not modelled. Out-of-range BigInteger/Integer values and strings longer than their `String(n)` limit are not rejected in the model. The JSON/JSONB variant and blob encoding are not interpreted.
- NOT NULL (`nullable=False`) is not modelled as a check: the row types give those columns no NULL value, so an INSERT with an explicit NULL cannot be written and `Violation` has no not-null case.
- Indexes are not modelled: they affect speed, not contents.
- UPDATE statements are not modelled. The declared check, unique and foreign-key rules would constrain them too (a negative `seq_in_tick`, a taken unique key, or a change to a referenced id under the default NO ACTION would be rejected).
- DELETE from world_tiles, world_maps, relationships and agent_snapshots is not modelled. Nothing references those rows.
- Multi-row statements and concurrent transactions are not modelled. Each statement is one transaction.
- ORM-only behaviour is not modelled: `relationship()` collections, `back_populates`, delete-orphan on removal from a collection, and `__repr__`.
- The float columns of relationships are carried as `real` values that are never computed on.
- Entities.Agent.constructor: stores a copy of the bag's contents, not a reference to the caller's list, so aliasing of the bag is not modelled.
- Inheritance is not modelled: the entity classes repeat the base fields, because classes cannot inherit here.
- `InteractiveEntity.research` is not modelled: it only prints.
- The capability mixins in `model/action.py` are not modelled: every method there is empty.
- The tkinter views (`view/topdown.py`, `view/demo.py`) are not modelled: they are UI and floating-point rendering.
