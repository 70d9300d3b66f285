/**
 * Sequences of single-row statements, each run in its own transaction: a
 * rejected INSERT changes nothing and the next statement runs on the same
 * tables. Whatever the sequence, the tables keep every declared constraint.
 */
module Statements {
  import opened Wrappers
  import opened Schema
  import opened Inserts
  import opened Deletes

  datatype Statement =
    | InsertWorldRow(world: World)
    | InsertTileRow(tile: WorldTile)
    | InsertMapRow(worldMap: WorldMap)
    | InsertAgentRow(agent: Agent)
    | InsertRelationshipRow(relationship: Relationship)
    | InsertEventRow(event: EventStore)
    | InsertSnapshotRow(snapshot: Snapshot)
    | InsertAgentSnapshotRow(capture: AgentSnapshot)
    | DeleteWorldRow(worldId: Uuid)
    | DeleteAgentRow(agentId: Uuid)
    | DeleteEventRow(eventId: Uuid)
    | DeleteSnapshotRow(snapshotId: Uuid)
  {
    predicate IsDelete() {
      DeleteWorldRow? || DeleteAgentRow? || DeleteEventRow? || DeleteSnapshotRow?
    }
  }

  /** One statement; only an INSERT can be rejected. */
  function Execute(t: Tables, s: Statement): (r: Result<Tables, Violation>)
    ensures s.IsDelete() ==> r.Success?
  {
    match s
    case InsertWorldRow(w) => InsertWorld(t, w)
    case InsertTileRow(tile) => InsertWorldTile(t, tile)
    case InsertMapRow(m) => InsertWorldMap(t, m)
    case InsertAgentRow(a) => InsertAgent(t, a)
    case InsertRelationshipRow(rel) => InsertRelationship(t, rel)
    case InsertEventRow(e) => InsertEvent(t, e)
    case InsertSnapshotRow(snap) => InsertSnapshot(t, snap)
    case InsertAgentSnapshotRow(c) => InsertAgentSnapshot(t, c)
    case DeleteWorldRow(w) => Success(DeleteWorld(t, w))
    case DeleteAgentRow(a) => Success(DeleteAgent(t, a))
    case DeleteEventRow(e) => Success(DeleteEvent(t, e))
    case DeleteSnapshotRow(snap) => Success(DeleteSnapshot(t, snap))
  }

  /** The tables after running the statements in order. */
  function Run(t: Tables, ss: seq<Statement>): Tables
    decreases |ss|
  {
    if ss == [] then t
    else
      var next := match Execute(t, ss[0]) case Success(t') => t' case Failure(_) => t;
      Run(next, ss[1..])
  }

  lemma ExecuteKeepsValid(t: Tables, s: Statement)
    requires Valid(t)
    ensures Execute(t, s).Success? ==> Valid(Execute(t, s).value)
  {
    match s
    case InsertWorldRow(w) => InsertWorldAccepted(t, w);
    case InsertTileRow(tile) => InsertWorldTileAccepted(t, tile);
    case InsertMapRow(m) => InsertWorldMapAccepted(t, m);
    case InsertAgentRow(a) => InsertAgentAccepted(t, a);
    case InsertRelationshipRow(rel) => InsertRelationshipAccepted(t, rel);
    case InsertEventRow(e) => InsertEventAccepted(t, e);
    case InsertSnapshotRow(snap) => InsertSnapshotAccepted(t, snap);
    case InsertAgentSnapshotRow(c) => InsertAgentSnapshotAccepted(t, c);
    case DeleteWorldRow(w) => DeleteWorldKeepsValid(t, w);
    case DeleteAgentRow(a) => DeleteAgentKeepsValid(t, a);
    case DeleteEventRow(e) => DeleteEventKeepsValid(t, e);
    case DeleteSnapshotRow(snap) => DeleteSnapshotKeepsValid(t, snap);
  }

  lemma {:induction false} RunKeepsValid(t: Tables, ss: seq<Statement>)
    requires Valid(t)
    ensures Valid(Run(t, ss))
    decreases |ss|
  {
    if ss != [] {
      ExecuteKeepsValid(t, ss[0]);
      var next := match Execute(t, ss[0]) case Success(t') => t' case Failure(_) => t;
      RunKeepsValid(next, ss[1..]);
    }
  }

  /**
   * Starting from empty tables, every stored event has seq_in_tick >= 0, no
   * two events share (world_id, tick, seq_in_tick), and no two snapshots
   * share (world_id, tick).
   */
  lemma EventLogConstraintsAlwaysHold(ss: seq<Statement>)
    ensures var t := Run(Empty, ss);
      && (forall id :: id in t.events ==> t.events[id].seqInTick >= 0)
      && (forall i, j :: i in t.events && j in t.events && i != j ==> t.events[i].TickSeq() != t.events[j].TickSeq())
      && (forall i, j :: i in t.snapshots && j in t.snapshots && i != j
                         ==> t.snapshots[i].WorldTick() != t.snapshots[j].WorldTick())
  {
    EmptyIsValid();
    RunKeepsValid(Empty, ss);
  }
}
