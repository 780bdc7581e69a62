/**
 * The persistence models of the two tables and the field-copy conversions between
 * them and the domain entities.
 */
module Database {
  import opened Entity

  /** A row of `path_nodes`. */
  datatype PathNodeModel = PathNodeModel(
    ID: string,
    PathID: string,
    Position: GoInt,
    Title: string,
    Description: string,
    MarkdownContent: string,
    BoilerplateCode: string,
    DocumentationSnippet: string,
    HiddenTests: string,
    Status: string,
    XPReward: GoInt,
    CreatedAt: Time,
    UpdatedAt: Time)
  {
    function TableName(): string {
      "path_nodes"
    }

    function ToEntity(): PathNode {
      PathNode(ID, PathID, Position, Title, Description, MarkdownContent, BoilerplateCode,
               DocumentationSnippet, HiddenTests, Status, XPReward, CreatedAt, UpdatedAt)
    }
  }

  /** The model of a node entity; converting it back gives the entity, field by field. */
  function FromNodeEntity(e: PathNode): (m: PathNodeModel)
    ensures m.ToEntity() == e
    ensures m.Status == e.Status
  {
    PathNodeModel(e.ID, e.PathID, e.Position, e.Title, e.Description, e.MarkdownContent, e.BoilerplateCode,
                  e.DocumentationSnippet, e.HiddenTests, e.Status, e.XPReward, e.CreatedAt, e.UpdatedAt)
  }

  /** Converting a row to an entity and back gives the row, status string included. */
  lemma NodeModelRoundTrip(m: PathNodeModel)
    ensures FromNodeEntity(m.ToEntity()) == m
    ensures m.ToEntity().Status == m.Status
  {
  }

  /** Every row converted to an entity, in order. */
  function NodeEntities(ms: seq<PathNodeModel>): seq<PathNode> {
    seq(|ms|, i requires 0 <= i < |ms| => ms[i].ToEntity())
  }

  /** Every entity converted to a row, in order. */
  function NodeModels(es: seq<PathNode>): seq<PathNodeModel> {
    seq(|es|, i requires 0 <= i < |es| => FromNodeEntity(es[i]))
  }

  /** The two list conversions undo each other. */
  lemma NodeListsRoundTrip(ms: seq<PathNodeModel>, es: seq<PathNode>)
    ensures NodeModels(NodeEntities(ms)) == ms
    ensures NodeEntities(NodeModels(es)) == es
  {
    assert forall i :: 0 <= i < |ms| ==> NodeModels(NodeEntities(ms))[i] == ms[i] by {
      forall i | 0 <= i < |ms| {
        NodeModelRoundTrip(ms[i]);
      }
    }
  }

  /** A row of `learning_paths`; `Nodes` is the association, filled only when preloaded. */
  datatype LearningPathModel = LearningPathModel(
    ID: string,
    UserID: string,
    Topic: string,
    Title: string,
    Status: string,
    CreatedAt: Time,
    UpdatedAt: Time,
    Nodes: seq<PathNodeModel>)
  {
    function TableName(): string {
      "learning_paths"
    }

    /** Copies the scalar fields and, when nodes were loaded, fills a fresh node list in an index loop. */
    method ToEntity() returns (path: LearningPath)
      ensures path == PathEntityOf(this)
    {
      path := LearningPath(ID, UserID, Topic, Title, Status, CreatedAt, UpdatedAt, []);
      if |Nodes| > 0 {
        var nodes := new PathNode[|Nodes|];
        for i := 0 to |Nodes|
          invariant forall j :: 0 <= j < i ==> nodes[j] == Nodes[j].ToEntity()
        {
          nodes[i] := Nodes[i].ToEntity();
        }
        path := path.(Nodes := nodes[..]);
      }
    }
  }

  /** The entity a path row converts to. */
  function PathEntityOf(m: LearningPathModel): LearningPath {
    LearningPath(m.ID, m.UserID, m.Topic, m.Title, m.Status, m.CreatedAt, m.UpdatedAt, NodeEntities(m.Nodes))
  }

  /**
   * A converted path has as many nodes as the row had loaded, the i-th being the
   * conversion of the i-th; with none loaded its node list is empty.
   */
  lemma PathEntityNodes(m: LearningPathModel)
    ensures |PathEntityOf(m).Nodes| == |m.Nodes|
    ensures forall i :: 0 <= i < |m.Nodes| ==> PathEntityOf(m).Nodes[i] == m.Nodes[i].ToEntity()
    ensures m.Nodes == [] ==> PathEntityOf(m).Nodes == []
  {
  }

  /**
   * The row of a path entity: every scalar field (status string included) copied, the
   * nodes dropped; converting it back gives the entity without its nodes.
   */
  function FromPathEntity(e: LearningPath): (m: LearningPathModel)
    ensures m.Nodes == []
    ensures m.Status == e.Status
    ensures PathEntityOf(m) == e.(Nodes := [])
  {
    LearningPathModel(e.ID, e.UserID, e.Topic, e.Title, e.Status, e.CreatedAt, e.UpdatedAt, [])
  }

  /** A path row without loaded nodes survives the trip to an entity and back. */
  lemma PathModelRoundTrip(m: LearningPathModel)
    requires m.Nodes == []
    ensures FromPathEntity(PathEntityOf(m)) == m
  {
  }

  /** The two table names. */
  lemma TableNames(n: PathNodeModel, p: LearningPathModel)
    ensures n.TableName() == "path_nodes" && p.TableName() == "learning_paths"
    ensures n.TableName() != p.TableName()
  {
  }
}
