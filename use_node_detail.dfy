/**
 * The node-detail hook: its own `node`/`isLoading`/`error`, not backed by the store.
 * `fetchNodeDetail` runs from the effect whenever the `pathId`/`nodeId` props change
 * (and on first mount); `refetch` is the very same procedure.
 */
module UseNodeDetail {
  import opened Wrappers
  import opened Api
  import opened Js

  const DetailFallback: string := "Error cargando los detalles del nodo"

  /** A snapshot of the hook's state. */
  datatype DetailState = DetailState(node: Option<Node>, isLoading: bool, error: Option<string>)

  /** Both ids are truthy, so `fetchNodeDetail` goes to the network. */
  predicate CanFetch(pathId: Option<string>, nodeId: Option<string>) {
    Truthy(pathId) && Truthy(nodeId)
  }

  /** The state a completed `fetchNodeDetail` leaves behind, starting from `s`. */
  function AfterFetch(s: DetailState, pathId: Option<string>, nodeId: Option<string>, outcome: Outcome<Node>): DetailState {
    if !CanFetch(pathId, nodeId) then s.(node := None)
    else
      match outcome
      case Resolved(response) => DetailState(Some(response), false, None)
      case Rejected(err) => DetailState(None, false, Some(ErrorMessage(err, DetailFallback)))
  }

  /**
   * What a completed fetch promises: with a falsy id only `node` is cleared; otherwise
   * loading is over and the node or the message is recorded; in every case a node
   * present means no error.
   */
  lemma AfterFetchOutcomes(s: DetailState, pathId: Option<string>, nodeId: Option<string>, outcome: Outcome<Node>)
    ensures var t := AfterFetch(s, pathId, nodeId, outcome);
      && (t.node.Some? ==> t.error.None?)
      && (!CanFetch(pathId, nodeId) ==> t.node.None? && t.isLoading == s.isLoading && t.error == s.error)
      && (CanFetch(pathId, nodeId) ==> !t.isLoading)
      && (CanFetch(pathId, nodeId) && outcome.Resolved? ==> t.node == Some(outcome.value) && t.error.None?)
      && (CanFetch(pathId, nodeId) && outcome.Rejected? ==>
            t.node.None? && t.error == Some(ErrorMessage(outcome.thrown, DetailFallback)))
  {
  }

  class NodeDetailHook {
    var node: Option<Node>
    var isLoading: bool
    var error: Option<string>
    /** The props of the latest render, and whether the component has mounted. */
    var pathId: Option<string>
    var nodeId: Option<string>
    var mounted: bool

    function State(): DetailState
      reads this
    {
      DetailState(node, isLoading, error)
    }

    /** A node on display never comes with an error. */
    predicate Valid()
      reads this
    {
      node.Some? ==> error.None?
    }

    constructor ()
      ensures Valid() && State() == DetailState(None, false, None) && !mounted
    {
      node, isLoading, error := None, false, None;
      pathId, nodeId, mounted := None, None, false;
    }

    /** `fetchNodeDetail` (also `refetch`), for the current props, ending in `outcome`. */
    method FetchNodeDetail(outcome: Outcome<Node>) returns (request: Option<Request>)
      requires Valid()
      modifies this`node, this`isLoading, this`error
      ensures Valid()
      ensures State() == AfterFetch(old(State()), pathId, nodeId, outcome)
      ensures request == if CanFetch(pathId, nodeId) then Some(GetNodeById(pathId.value, nodeId.value)) else None
    {
      if !CanFetch(pathId, nodeId) {
        node := None;
        return None;
      }
      var r := BeginFetch();
      request := Some(r);
      SettleFetch(outcome);
    }

    /** The part before the await: raise the flag and clear the error. */
    method BeginFetch() returns (request: Request)
      requires Valid() && CanFetch(pathId, nodeId)
      modifies this`isLoading, this`error
      ensures Valid()
      ensures State() == old(State()).(isLoading := true, error := None)
      ensures request == GetNodeById(pathId.value, nodeId.value)
    {
      isLoading := true;
      error := None;
      request := GetNodeById(pathId.value, nodeId.value);
    }

    /** The part after the await: record the node or the message, then lower the flag. */
    method SettleFetch(outcome: Outcome<Node>)
      requires error.None?
      modifies this`node, this`isLoading, this`error
      ensures Valid()
      ensures outcome.Resolved? ==> State() == DetailState(Some(outcome.value), false, None)
      ensures outcome.Rejected? ==> State() == DetailState(None, false, Some(ErrorMessage(outcome.thrown, DetailFallback)))
    {
      match outcome {
        case Resolved(response) =>
          node := Some(response);
        case Rejected(err) =>
          error := Some(ErrorMessage(err, DetailFallback));
          node := None;
      }
      isLoading := false;
    }

    /**
     * A render with new props. The effect runs `fetchNodeDetail` on first mount and
     * whenever `pathId` or `nodeId` differs from the previous render; otherwise nothing
     * is fetched and the state stays as it is.
     */
    method Render(newPathId: Option<string>, newNodeId: Option<string>, outcome: Outcome<Node>)
      returns (request: Option<Request>)
      requires Valid()
      modifies this
      ensures Valid() && mounted && pathId == newPathId && nodeId == newNodeId
      ensures !old(mounted) || old(pathId) != newPathId || old(nodeId) != newNodeId ==>
        && State() == AfterFetch(old(State()), newPathId, newNodeId, outcome)
        && request == if CanFetch(newPathId, newNodeId) then Some(GetNodeById(newPathId.value, newNodeId.value)) else None
      ensures old(mounted) && old(pathId) == newPathId && old(nodeId) == newNodeId ==>
        State() == old(State()) && request == None
    {
      var changed := !mounted || pathId != newPathId || nodeId != newNodeId;
      pathId, nodeId, mounted := newPathId, newNodeId, true;
      if changed {
        request := FetchNodeDetail(outcome);
      } else {
        request := None;
      }
    }
  }
}
