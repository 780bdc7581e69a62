/**
 * The two repositories as operations on the in-memory database: inserts, key lookups,
 * filtered and ordered queries whose rows are converted in a loop, and in-place
 * status updates.
 */
module Repository {
  import opened Wrappers
  import opened Entity
  import opened Database
  import opened Tables

  /** The one database error modelled: an insert that would repeat a primary key. */
  datatype DbError = DuplicateKey

  class PostgresNodeRepository {
    const db: Db

    constructor (db: Db)
      ensures this.db == db
    {
      this.db := db;
    }

    /**
     * Inserts the rows of all `nodes` in one transaction: all of them, or, when a key
     * would repeat, none. An empty list is a no-op without error.
     */
    method CreateBatch(nodes: seq<PathNode>) returns (err: Option<DbError>)
      requires db.Valid()
      modifies db
      ensures db.Valid()
      ensures db.learningPaths == old(db.learningPaths)
      ensures nodes == [] ==> err.None? && db.pathNodes == old(db.pathNodes)
      ensures err.None? <==> DistinctNodeIds(old(db.pathNodes) + NodeModels(nodes))
      ensures err.None? ==> db.pathNodes == old(db.pathNodes) + NodeModels(nodes)
      ensures err.Some? ==> db.pathNodes == old(db.pathNodes)
    {
      if |nodes| == 0 {
        assert old(db.pathNodes) + NodeModels(nodes) == old(db.pathNodes);
        return None;
      }
      var models := new PathNodeModel[|nodes|];
      for i := 0 to |nodes|
        modifies models
        invariant forall j :: 0 <= j < i ==> models[j] == FromNodeEntity(nodes[j])
      {
        models[i] := FromNodeEntity(nodes[i]);
      }
      assert models[..] == NodeModels(nodes);
      if DistinctNodeIds(db.pathNodes + models[..]) {
        db.pathNodes := db.pathNodes + models[..];
        err := None;
      } else {
        err := Some(DuplicateKey);
      }
    }

    /** The node stored under `id`, or none (not an error) when there is no such row. */
    method GetByID(id: string) returns (r: Option<PathNode>)
      ensures r.None? <==> forall i :: 0 <= i < |db.pathNodes| ==> db.pathNodes[i].ID != id
      ensures r.Some? ==> r.value.ID == id && FromNodeEntity(r.value) in db.pathNodes
    {
      var row := NodeByID(db.pathNodes, id);
      if row.None? {
        return None;
      }
      NodeModelRoundTrip(row.value);
      r := Some(row.value.ToEntity());
    }

    /** Every node of the path, by nondecreasing position, each row converted in a loop. */
    method GetByPathID(pathID: string) returns (r: seq<PathNode>)
      ensures r == NodeEntities(NodesOfPath(db.pathNodes, pathID))
      ensures multiset(NodeModels(r)) == multiset(RowsOfPath(db.pathNodes, pathID))
      ensures forall i :: 0 <= i < |r| ==> r[i].PathID == pathID
      ensures forall i, j :: 0 <= i < j < |r| ==> r[i].Position <= r[j].Position
    {
      var models := NodesOfPath(db.pathNodes, pathID);
      r := ConvertRows(models);
      NodeEntitiesOfPath(db.pathNodes, pathID);
    }

    /** The loop that turns the queried rows into entities, one row at a time. */
    static method ConvertRows(models: seq<PathNodeModel>) returns (r: seq<PathNode>)
      ensures r == NodeEntities(models)
      ensures NodeModels(r) == models
    {
      var nodes := new PathNode[|models|];
      for i := 0 to |models|
        invariant forall j :: 0 <= j < i ==> nodes[j] == models[j].ToEntity()
      {
        nodes[i] := models[i].ToEntity();
      }
      r := nodes[..];
      NodeListsRoundTrip(models, r);
    }

    /** Sets the status of the row with that id; an unknown id changes nothing. */
    method UpdateStatus(id: string, status: NodeStatus)
      requires db.Valid()
      modifies db
      ensures db.Valid()
      ensures db.learningPaths == old(db.learningPaths)
      ensures db.pathNodes == WithNodeStatus(old(db.pathNodes), id, status)
    {
      WithNodeStatusEffect(db.pathNodes, id, status);
      db.pathNodes := WithNodeStatus(db.pathNodes, id, status);
    }

    /** Unlocks the locked nodes of the path at the position after `currentPosition`. */
    method UnlockNext(pathID: string, currentPosition: GoInt)
      requires db.Valid()
      modifies db
      ensures db.Valid()
      ensures db.learningPaths == old(db.learningPaths)
      ensures db.pathNodes == UnlockedNext(old(db.pathNodes), pathID, currentPosition)
    {
      UnlockedNextKeepsIds(db.pathNodes, pathID, currentPosition);
      db.pathNodes := UnlockedNext(db.pathNodes, pathID, currentPosition);
    }
  }

  class PostgresPathRepository {
    const db: Db

    constructor (db: Db)
      ensures this.db == db
    {
      this.db := db;
    }

    /** Inserts the row of `path` (its nodes are not part of the row); fails on a taken id. */
    method Create(path: LearningPath) returns (err: Option<DbError>)
      requires db.Valid()
      modifies db
      ensures db.Valid()
      ensures db.pathNodes == old(db.pathNodes)
      ensures err.None? <==> forall i :: 0 <= i < |old(db.learningPaths)| ==> old(db.learningPaths)[i].ID != path.ID
      ensures err.None? ==> db.learningPaths == old(db.learningPaths) + [FromPathEntity(path)]
      ensures err.Some? ==> db.learningPaths == old(db.learningPaths)
    {
      var model := FromPathEntity(path);
      if PathByID(db.learningPaths, model.ID).Some? {
        return Some(DuplicateKey);
      }
      db.learningPaths := db.learningPaths + [model];
      err := None;
    }

    /** The path stored under `id` without its nodes, or none when there is no such row. */
    method GetByID(id: string) returns (r: Option<LearningPath>)
      requires db.Valid()
      ensures r.None? <==> forall i :: 0 <= i < |db.learningPaths| ==> db.learningPaths[i].ID != id
      ensures r.Some? ==> r.value.ID == id && r.value.Nodes == [] && FromPathEntity(r.value) in db.learningPaths
    {
      var row := PathByID(db.learningPaths, id);
      if row.None? {
        return None;
      }
      var path := row.value.ToEntity();
      PathModelRoundTrip(row.value);
      r := Some(path);
    }

    /** The path stored under `id` with every node of it, ordered by position. */
    method GetByIDWithNodes(id: string) returns (r: Option<LearningPath>)
      requires db.Valid()
      ensures r.None? <==> forall i :: 0 <= i < |db.learningPaths| ==> db.learningPaths[i].ID != id
      ensures r.Some? ==>
        && r.value.ID == id
        && FromPathEntity(r.value) in db.learningPaths
        && r.value.Nodes == NodeEntities(NodesOfPath(db.pathNodes, id))
        && multiset(NodeModels(r.value.Nodes)) == multiset(RowsOfPath(db.pathNodes, id))
        && (forall i, j :: 0 <= i < j < |r.value.Nodes| ==> r.value.Nodes[i].Position <= r.value.Nodes[j].Position)
    {
      var row := PathByID(db.learningPaths, id);
      if row.None? {
        return None;
      }
      var nodes := NodesOfPath(db.pathNodes, id);
      var loaded := row.value.(Nodes := nodes);
      var path := loaded.ToEntity();
      PathModelRoundTrip(row.value);
      NodeEntitiesOfPath(db.pathNodes, id);
      NodesOfPathSpec(db.pathNodes, id);
      assert FromPathEntity(path) == row.value;
      r := Some(path);
    }

    /** The user's paths, newest first, each row converted in a loop. */
    method GetByUserID(userID: string) returns (r: seq<LearningPath>)
      requires db.Valid()
      ensures |r| == |PathsOfUser(db.learningPaths, userID)|
      ensures forall i :: 0 <= i < |r| ==> FromPathEntity(r[i]) == PathsOfUser(db.learningPaths, userID)[i]
      ensures forall i :: 0 <= i < |r| ==> r[i].UserID == userID && r[i].Nodes == []
      ensures forall i, j :: 0 <= i < j < |r| ==> r[i].CreatedAt >= r[j].CreatedAt
    {
      var models := PathsOfUser(db.learningPaths, userID);
      var paths := new LearningPath[|models|];
      for i := 0 to |models|
        invariant forall j :: 0 <= j < i ==> paths[j] == PathEntityOf(models[j])
      {
        paths[i] := models[i].ToEntity();
      }
      r := paths[..];
      PathsOfUserSpec(db.learningPaths, userID);
      forall i | 0 <= i < |r| ensures FromPathEntity(r[i]) == models[i] && r[i].Nodes == [] {
        PathsOfUserAreStored(db.learningPaths, userID, i);
        PathModelRoundTrip(models[i]);
      }
    }

    /** Sets the status of the row with that id; an unknown id changes nothing. */
    method UpdateStatus(id: string, status: PathStatus)
      requires db.Valid()
      modifies db
      ensures db.Valid()
      ensures db.pathNodes == old(db.pathNodes)
      ensures db.learningPaths == WithPathStatus(old(db.learningPaths), id, status)
    {
      WithPathStatusEffect(db.learningPaths, id, status);
      db.learningPaths := WithPathStatus(db.learningPaths, id, status);
    }
  }
}
