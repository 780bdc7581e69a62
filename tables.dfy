/**
 * The two tables held in memory, and what the repositories' `WHERE`, `ORDER BY`,
 * `First` and `UPDATE` clauses mean over them. The `ID` column is the primary key of
 * both tables, so no two rows of one table share an id.
 */
module Tables {
  import opened Wrappers
  import opened Entity
  import opened Database
  import Collections

  predicate DistinctNodeIds(rows: seq<PathNodeModel>) {
    forall i, j :: 0 <= i < j < |rows| ==> rows[i].ID != rows[j].ID
  }

  predicate DistinctPathIds(rows: seq<LearningPathModel>) {
    forall i, j :: 0 <= i < j < |rows| ==> rows[i].ID != rows[j].ID
  }

  /** The database: both tables. */
  class Db {
    var learningPaths: seq<LearningPathModel>
    var pathNodes: seq<PathNodeModel>

    /** Primary keys are unique; a stored path row carries no association rows. */
    predicate Valid()
      reads this
    {
      && DistinctNodeIds(pathNodes)
      && DistinctPathIds(learningPaths)
      && forall i :: 0 <= i < |learningPaths| ==> learningPaths[i].Nodes == []
    }

    constructor ()
      ensures Valid() && learningPaths == [] && pathNodes == []
    {
      learningPaths := [];
      pathNodes := [];
    }
  }

  // ---------------------------------------------------------------- path_nodes

  /** `WHERE id = ?` then `First`: the row with that id, or none. */
  function NodeByID(rows: seq<PathNodeModel>, id: string): (r: Option<PathNodeModel>)
    ensures r.None? <==> forall i :: 0 <= i < |rows| ==> rows[i].ID != id
    ensures r.Some? ==> r.value in rows && r.value.ID == id
  {
    Collections.FindFirst(rows, (m: PathNodeModel) => m.ID == id)
  }

  /** With unique ids, the row found is the one row carrying the id. */
  lemma NodeByIDIsTheRow(rows: seq<PathNodeModel>, id: string, i: int)
    requires DistinctNodeIds(rows) && 0 <= i < |rows| && rows[i].ID == id
    ensures NodeByID(rows, id) == Some(rows[i])
  {
  }

  /** `WHERE path_id = ?`: exactly the rows of that path, each as often as it occurs. */
  function RowsOfPath(rows: seq<PathNodeModel>, pathID: string): (r: seq<PathNodeModel>)
    ensures forall i :: 0 <= i < |r| ==> r[i].PathID == pathID
    ensures forall x :: multiset(r)[x] == if x.PathID == pathID then multiset(rows)[x] else 0
  {
    Collections.Filter(rows, (m: PathNodeModel) => m.PathID == pathID)
  }

  function PositionKey(m: PathNodeModel): int {
    m.Position
  }

  /** `WHERE path_id = ? ORDER BY position ASC`. */
  function NodesOfPath(rows: seq<PathNodeModel>, pathID: string): seq<PathNodeModel> {
    Collections.SortBy(RowsOfPath(rows, pathID), PositionKey)
  }

  /** The ordered query returns exactly the rows of the path, by nondecreasing position. */
  lemma NodesOfPathSpec(rows: seq<PathNodeModel>, pathID: string)
    ensures var r := NodesOfPath(rows, pathID);
      && multiset(r) == multiset(RowsOfPath(rows, pathID))
      && (forall i :: 0 <= i < |r| ==> r[i].PathID == pathID)
      && (forall i, j :: 0 <= i < j < |r| ==> r[i].Position <= r[j].Position)
  {
    var r := NodesOfPath(rows, pathID);
    forall i | 0 <= i < |r| ensures r[i].PathID == pathID {
      assert multiset(r)[r[i]] > 0;
    }
    assert forall i, j :: 0 <= i < j < |r| ==> PositionKey(r[i]) <= PositionKey(r[j]);
  }

  /**
   * The entities of a path's ordered rows: they convert back to exactly the path's rows,
   * all belong to the path and come by nondecreasing position.
   */
  lemma NodeEntitiesOfPath(rows: seq<PathNodeModel>, pathID: string)
    ensures var es := NodeEntities(NodesOfPath(rows, pathID));
      && multiset(NodeModels(es)) == multiset(RowsOfPath(rows, pathID))
      && (forall i :: 0 <= i < |es| ==> es[i].PathID == pathID)
      && (forall i, j :: 0 <= i < j < |es| ==> es[i].Position <= es[j].Position)
  {
    var ordered := NodesOfPath(rows, pathID);
    NodesOfPathSpec(rows, pathID);
    NodeListsRoundTrip(ordered, []);
  }

  /** `UPDATE path_nodes SET status = ? WHERE id = ?`. */
  function WithNodeStatus(rows: seq<PathNodeModel>, id: string, status: string): seq<PathNodeModel> {
    Collections.MapWhere(rows, (m: PathNodeModel) => m.ID == id, (m: PathNodeModel) => m.(Status := status))
  }

  /**
   * Only the status of the rows with that id changes; every other row and every other
   * field stays; an unknown id changes nothing; ids stay unique.
   */
  lemma WithNodeStatusEffect(rows: seq<PathNodeModel>, id: string, status: string)
    ensures var r := WithNodeStatus(rows, id, status);
      && |r| == |rows|
      && (forall i :: 0 <= i < |rows| ==> r[i] == if rows[i].ID == id then rows[i].(Status := status) else rows[i])
      && (DistinctNodeIds(rows) ==> DistinctNodeIds(r))
    ensures (forall i :: 0 <= i < |rows| ==> rows[i].ID != id) ==> WithNodeStatus(rows, id, status) == rows
  {
  }

  const WordModulus: int := 0x1_0000_0000_0000_0000

  /**
   * `currentPosition + 1` on a Go `int`: two's-complement addition, so the result is
   * the 64-bit value congruent to `k + 1` modulo 2^64.
   */
  function NextPosition(k: GoInt): (n: GoInt)
    ensures (n - k - 1) % WordModulus == 0
  {
    if k == MaxInt then MinInt else k + 1
  }

  /** Only one 64-bit value is congruent to `k + 1`, so the wrapped sum is determined. */
  lemma NextPositionUnique(k: GoInt, m: GoInt)
    requires (m - k - 1) % WordModulus == 0
    ensures m == NextPosition(k)
  {
    var n := NextPosition(k);
    assert (m - n) % WordModulus == 0 by {
      assert m - n == (m - k - 1) - (n - k - 1);
    }
    assert -WordModulus < m - n < WordModulus;
  }

  /** The `WHERE` of `UnlockNext`: a locked row of the path at the next position. */
  predicate IsNextLocked(m: PathNodeModel, pathID: string, next: GoInt) {
    m.PathID == pathID && m.Position == next && m.Status == NodeStatusLocked
  }

  /** `UPDATE path_nodes SET status = 'unlocked' WHERE path_id = ? AND position = ? AND status = 'locked'`. */
  function UnlockedNext(rows: seq<PathNodeModel>, pathID: string, currentPosition: GoInt): seq<PathNodeModel> {
    var next := NextPosition(currentPosition);
    Collections.MapWhere(rows, (m: PathNodeModel) => IsNextLocked(m, pathID, next),
                         (m: PathNodeModel) => m.(Status := NodeStatusUnlocked))
  }

  /**
   * `UnlockNext` unlocks exactly the locked rows of the path at the next position; rows
   * at other positions, of other paths, or not locked are left exactly as they were.
   */
  lemma UnlockedNextEffect(rows: seq<PathNodeModel>, pathID: string, k: GoInt)
    ensures var r := UnlockedNext(rows, pathID, k);
      && |r| == |rows|
      && forall i :: 0 <= i < |rows| ==>
           if IsNextLocked(rows[i], pathID, NextPosition(k))
           then r[i] == rows[i].(Status := NodeStatusUnlocked) && r[i].ToEntity().IsUnlocked()
           else r[i] == rows[i]
  {
  }

  /** Running `UnlockNext` twice is the same as running it once. */
  lemma UnlockedNextIdempotent(rows: seq<PathNodeModel>, pathID: string, k: GoInt)
    ensures UnlockedNext(UnlockedNext(rows, pathID, k), pathID, k) == UnlockedNext(rows, pathID, k)
  {
    var once := UnlockedNext(rows, pathID, k);
    UnlockedNextEffect(rows, pathID, k);
    UnlockedNextEffect(once, pathID, k);
    assert forall i :: 0 <= i < |once| ==> !IsNextLocked(once[i], pathID, NextPosition(k));
  }

  /** `UnlockNext` keeps every row's id, so the key stays unique. */
  lemma UnlockedNextKeepsIds(rows: seq<PathNodeModel>, pathID: string, k: GoInt)
    requires DistinctNodeIds(rows)
    ensures DistinctNodeIds(UnlockedNext(rows, pathID, k))
  {
    UnlockedNextEffect(rows, pathID, k);
  }

  /**
   * Three nodes at positions 1 (completed), 2 and 3 (locked): unlocking after position 1
   * unlocks the second and keeps the third locked.
   */
  lemma UnlockNextAfterFirst(p: string, n1: PathNodeModel, n2: PathNodeModel, n3: PathNodeModel)
    requires n1.PathID == p && n1.Position == 1 && n1.Status == NodeStatusCompleted
    requires n2.PathID == p && n2.Position == 2 && n2.Status == NodeStatusLocked
    requires n3.PathID == p && n3.Position == 3 && n3.Status == NodeStatusLocked
    ensures UnlockedNext([n1, n2, n3], p, 1) == [n1, n2.(Status := NodeStatusUnlocked), n3]
  {
    UnlockedNextEffect([n1, n2, n3], p, 1);
  }

  // ------------------------------------------------------------ learning_paths

  /** `WHERE id = ?` then `First` on `learning_paths`. */
  function PathByID(rows: seq<LearningPathModel>, id: string): (r: Option<LearningPathModel>)
    ensures r.None? <==> forall i :: 0 <= i < |rows| ==> rows[i].ID != id
    ensures r.Some? ==> r.value in rows && r.value.ID == id
  {
    Collections.FindFirst(rows, (m: LearningPathModel) => m.ID == id)
  }

  /**
   * After inserting the row of `e` under a fresh id, looking that id up finds that row,
   * and its entity has the same id, user, topic, title, status and timestamps as `e`, but
   * no nodes.
   */
  lemma CreateThenGetByID(rows: seq<LearningPathModel>, e: LearningPath)
    requires forall i :: 0 <= i < |rows| ==> rows[i].ID != e.ID
    ensures PathByID(rows + [FromPathEntity(e)], e.ID) == Some(FromPathEntity(e))
    ensures PathEntityOf(FromPathEntity(e)) == e.(Nodes := [])
  {
    Collections.FindFirstAfterNoMatch(rows, [FromPathEntity(e)], (m: LearningPathModel) => m.ID == e.ID);
  }

  /** `WHERE user_id = ?`. */
  function RowsOfUser(rows: seq<LearningPathModel>, userID: string): (r: seq<LearningPathModel>)
    ensures forall i :: 0 <= i < |r| ==> r[i].UserID == userID
    ensures forall x :: multiset(r)[x] == if x.UserID == userID then multiset(rows)[x] else 0
  {
    Collections.Filter(rows, (m: LearningPathModel) => m.UserID == userID)
  }

  function NewestFirstKey(m: LearningPathModel): int {
    -m.CreatedAt
  }

  /** `WHERE user_id = ? ORDER BY created_at DESC`. */
  function PathsOfUser(rows: seq<LearningPathModel>, userID: string): seq<LearningPathModel> {
    Collections.SortBy(RowsOfUser(rows, userID), NewestFirstKey)
  }

  /** The ordered query returns exactly the user's rows, newest `created_at` first. */
  lemma PathsOfUserSpec(rows: seq<LearningPathModel>, userID: string)
    ensures var r := PathsOfUser(rows, userID);
      && multiset(r) == multiset(RowsOfUser(rows, userID))
      && (forall i :: 0 <= i < |r| ==> r[i].UserID == userID)
      && (forall i, j :: 0 <= i < j < |r| ==> r[i].CreatedAt >= r[j].CreatedAt)
  {
    var r := PathsOfUser(rows, userID);
    forall i | 0 <= i < |r| ensures r[i].UserID == userID {
      assert multiset(r)[r[i]] > 0;
    }
    assert forall i, j :: 0 <= i < j < |r| ==> NewestFirstKey(r[i]) <= NewestFirstKey(r[j]);
  }

  /** A row is returned by the user query exactly when it is stored and belongs to the user. */
  lemma PathsOfUserMembers(rows: seq<LearningPathModel>, userID: string, x: LearningPathModel)
    ensures x in PathsOfUser(rows, userID) <==> x in rows && x.UserID == userID
  {
    PathsOfUserSpec(rows, userID);
    assert x in PathsOfUser(rows, userID) <==> x in RowsOfUser(rows, userID) by {
      assert x in PathsOfUser(rows, userID) <==> multiset(PathsOfUser(rows, userID))[x] > 0;
      assert x in RowsOfUser(rows, userID) <==> multiset(RowsOfUser(rows, userID))[x] > 0;
    }
    Collections.FilterMembers(rows, (m: LearningPathModel) => m.UserID == userID, x);
  }

  /** Every row the user query returns is a stored row. */
  lemma PathsOfUserAreStored(rows: seq<LearningPathModel>, userID: string, i: int)
    requires 0 <= i < |PathsOfUser(rows, userID)|
    ensures PathsOfUser(rows, userID)[i] in rows
  {
    PathsOfUserMembers(rows, userID, PathsOfUser(rows, userID)[i]);
  }

  /** `UPDATE learning_paths SET status = ? WHERE id = ?`. */
  function WithPathStatus(rows: seq<LearningPathModel>, id: string, status: string): seq<LearningPathModel> {
    Collections.MapWhere(rows, (m: LearningPathModel) => m.ID == id, (m: LearningPathModel) => m.(Status := status))
  }

  /** Only the status of the row with that id changes; the table's invariants are kept. */
  lemma WithPathStatusEffect(rows: seq<LearningPathModel>, id: string, status: string)
    ensures var r := WithPathStatus(rows, id, status);
      && |r| == |rows|
      && (forall i :: 0 <= i < |rows| ==> r[i] == if rows[i].ID == id then rows[i].(Status := status) else rows[i])
      && (DistinctPathIds(rows) ==> DistinctPathIds(r))
      && ((forall i :: 0 <= i < |rows| ==> rows[i].Nodes == []) ==> forall i :: 0 <= i < |r| ==> r[i].Nodes == [])
  {
  }
}
