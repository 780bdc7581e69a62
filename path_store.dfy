/**
 * The client session store: one mutable record holding the active path id, its
 * nodes, the selected node id, a loading flag and an error message, changed only
 * through its actions.
 */
module Store {
  import opened Wrappers
  import opened Api
  import Collections

  /** A snapshot of the store's fields. */
  datatype PathState = PathState(
    currentPathId: Option<string>,
    currentNodes: seq<Node>,
    currentNodeId: Option<string>,
    isLoading: bool,
    error: Option<string>)

  /** The state the store is created in, and the one `reset` returns to. */
  const Initial: PathState := PathState(None, [], None, false, None)

  /** The list `updateNodeInList` builds: each node with the given id merged with the patch. */
  function UpdatedNodes(nodes: seq<Node>, nodeId: string, updates: NodePatch): seq<Node> {
    Collections.MapWhere(nodes, (n: Node) => n.node_id == nodeId, (n: Node) => Merge(n, updates))
  }

  /**
   * The update keeps the length and every position: a node whose id differs is left
   * exactly as it was, and a node with the id becomes the merge of it and the patch.
   */
  lemma UpdatedNodesPointwise(nodes: seq<Node>, nodeId: string, updates: NodePatch)
    ensures |UpdatedNodes(nodes, nodeId, updates)| == |nodes|
    ensures forall i :: 0 <= i < |nodes| && nodes[i].node_id != nodeId ==>
              UpdatedNodes(nodes, nodeId, updates)[i] == nodes[i]
    ensures forall i :: 0 <= i < |nodes| && nodes[i].node_id == nodeId ==>
              UpdatedNodes(nodes, nodeId, updates)[i] == Merge(nodes[i], updates)
  {
  }

  /** When no node carries the id, the list is unchanged. */
  lemma UpdatedNodesNoMatch(nodes: seq<Node>, nodeId: string, updates: NodePatch)
    requires forall i :: 0 <= i < |nodes| ==> nodes[i].node_id != nodeId
    ensures UpdatedNodes(nodes, nodeId, updates) == nodes
  {
    UpdatedNodesPointwise(nodes, nodeId, updates);
  }

  /**
   * The laws of `{...node, ...updates}`: the empty patch changes nothing, applying a
   * patch twice is applying it once, and two patches in a row are one combined patch.
   */
  lemma MergeLaws(n: Node, u: NodePatch, v: NodePatch)
    ensures Merge(n, EmptyPatch) == n
    ensures Merge(Merge(n, u), u) == Merge(n, u)
    ensures Merge(Merge(n, u), v) == Merge(n, Combine(u, v))
  {
  }

  /**
   * Two `updateNodeInList` calls for the same id are one call with the combined patch,
   * provided the first patch does not move the node to another id.
   */
  lemma {:induction false} UpdatedNodesTwice(nodes: seq<Node>, nodeId: string, u: NodePatch, v: NodePatch)
    requires u.node_id.None? || u.node_id == Some(nodeId)
    ensures UpdatedNodes(UpdatedNodes(nodes, nodeId, u), nodeId, v) == UpdatedNodes(nodes, nodeId, Combine(u, v))
  {
    var once := UpdatedNodes(nodes, nodeId, u);
    var twice := UpdatedNodes(once, nodeId, v);
    var combined := UpdatedNodes(nodes, nodeId, Combine(u, v));
    UpdatedNodesPointwise(nodes, nodeId, u);
    UpdatedNodesPointwise(once, nodeId, v);
    UpdatedNodesPointwise(nodes, nodeId, Combine(u, v));
    forall i | 0 <= i < |nodes| ensures twice[i] == combined[i] {
      MergeLaws(nodes[i], u, v);
    }
  }

  /** Merging `{completed: c}` sets `completed` on the matching nodes and touches nothing else. */
  lemma UpdatedNodesCompletion(nodes: seq<Node>, nodeId: string, c: bool)
    ensures var r := UpdatedNodes(nodes, nodeId, CompletedPatch(c));
      && |r| == |nodes|
      && forall i :: 0 <= i < |nodes| ==>
           r[i] == if nodes[i].node_id == nodeId then nodes[i].(completed := c) else nodes[i]
  {
    UpdatedNodesPointwise(nodes, nodeId, CompletedPatch(c));
    forall i | 0 <= i < |nodes| && nodes[i].node_id == nodeId {
      MergeCompletedPatch(nodes[i], c);
    }
  }

  class PathStore {
    var currentPathId: Option<string>
    var currentNodes: seq<Node>
    var currentNodeId: Option<string>
    var isLoading: bool
    var error: Option<string>

    function State(): PathState
      reads this
    {
      PathState(currentPathId, currentNodes, currentNodeId, isLoading, error)
    }

    constructor ()
      ensures State() == Initial
    {
      currentPathId := None;
      currentNodes := [];
      currentNodeId := None;
      isLoading := false;
      error := None;
    }

    /** Replaces path id and nodes in one step and clears the error. */
    method SetCurrentPath(pathId: string, nodes: seq<Node>)
      modifies this
      ensures State() == old(State()).(currentPathId := Some(pathId), currentNodes := nodes, error := None)
    {
      currentPathId, currentNodes, error := Some(pathId), nodes, None;
    }

    /** Records the selected node id; it need not belong to `currentNodes`. */
    method SetCurrentNode(nodeId: string)
      modifies this
      ensures State() == old(State()).(currentNodeId := Some(nodeId))
    {
      currentNodeId := Some(nodeId);
    }

    /** Merges `updates` into every node whose id is `nodeId`; only the list changes. */
    method UpdateNodeInList(nodeId: string, updates: NodePatch)
      modifies this
      ensures State() == old(State()).(currentNodes := UpdatedNodes(old(currentNodes), nodeId, updates))
    {
      currentNodes := UpdatedNodes(currentNodes, nodeId, updates);
    }

    method SetLoading(loading: bool)
      modifies this
      ensures State() == old(State()).(isLoading := loading)
    {
      isLoading := loading;
    }

    /** Records the error and, as a side effect, clears the loading flag. */
    method SetError(e: Option<string>)
      modifies this
      ensures State() == old(State()).(error := e, isLoading := false)
    {
      error, isLoading := e, false;
    }

    /** Back to the state the store was created in. */
    method Reset()
      modifies this
      ensures State() == Initial
    {
      currentPathId := None;
      currentNodes := [];
      currentNodeId := None;
      isLoading := false;
      error := None;
    }
  }
}
