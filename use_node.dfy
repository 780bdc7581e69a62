/**
 * The node-operations hook: `fetchNode` and `updateNodeCompletion` over the hook's
 * own `isLoading`/`error` and the shared store. `fetchNode` is split at its await
 * into the part before the call and the part after it.
 */
module UseNode {
  import opened Wrappers
  import opened Api
  import opened Js
  import opened Store

  const FetchNodeFallback: string := "Error cargando el nodo"
  const UpdateNodeFallback: string := "Error actualizando el nodo"
  const NoActivePath: string := "No hay un path activo"

  class NodeHook {
    var isLoading: bool
    var error: Option<string>
    const store: PathStore

    constructor (store: PathStore)
      ensures this.store == store && !isLoading && error == None
    {
      this.store := store;
      isLoading := false;
      error := None;
    }

    /** `fetchNode` up to the await: raise the loading flag, clear the error, send the request. */
    method BeginFetchNode(pathId: string, nodeId: string) returns (request: Request)
      modifies this
      ensures isLoading && error == None
      ensures request == GetNodeById(pathId, nodeId)
    {
      isLoading := true;
      error := None;
      request := GetNodeById(pathId, nodeId);
    }

    /** `fetchNode` after the await: the `try`/`catch` branches, then the `finally`. */
    method SettleFetchNode(nodeId: string, outcome: Outcome<Node>) returns (r: Option<Node>)
      modifies this, store
      ensures !isLoading
      ensures outcome.Resolved? ==>
        && r == Some(outcome.value)
        && error == old(error)
        && store.State() == old(store.State()).(currentNodeId := Some(nodeId))
      ensures outcome.Rejected? ==>
        && r == None
        && error == Some(ErrorMessage(outcome.thrown, FetchNodeFallback))
        && store.State() == old(store.State())
    {
      match outcome {
        case Resolved(response) =>
          store.SetCurrentNode(nodeId);
          r := Some(response);
        case Rejected(err) =>
          error := Some(ErrorMessage(err, FetchNodeFallback));
          r := None;
      }
      isLoading := false;
    }

    /** One whole `fetchNode(pathId, nodeId)` call whose request ends in `outcome`. */
    method FetchNode(pathId: string, nodeId: string, outcome: Outcome<Node>) returns (request: Request, r: Option<Node>)
      modifies this, store
      ensures request == GetNodeById(pathId, nodeId)
      ensures !isLoading
      ensures outcome.Resolved? ==>
        && r == Some(outcome.value)
        && error == None
        && store.State() == old(store.State()).(currentNodeId := Some(nodeId))
      ensures outcome.Rejected? ==>
        && r == None
        && error == Some(ErrorMessage(outcome.thrown, FetchNodeFallback))
        && store.State() == old(store.State())
    {
      request := BeginFetchNode(pathId, nodeId);
      r := SettleFetchNode(nodeId, outcome);
    }

    /**
     * `updateNodeCompletion(nodeId, completed)`. Without an active path (null or empty
     * id) it fails at once and sends nothing; otherwise it sends the update for the
     * store's path and, on success, merges only the returned completion flag. It never
     * touches `isLoading` and does not clear an earlier error.
     */
    method UpdateNodeCompletion(nodeId: string, completed: bool, outcome: Outcome<Node>)
      returns (request: Option<Request>, ok: bool)
      modifies this, store
      ensures isLoading == old(isLoading)
      ensures !Truthy(old(store.currentPathId)) ==>
        && request == None
        && !ok
        && error == Some(NoActivePath)
        && store.State() == old(store.State())
      ensures Truthy(old(store.currentPathId)) ==>
        request == Some(PatchNodeCompletion(old(store.currentPathId).value, nodeId, completed))
      ensures Truthy(old(store.currentPathId)) && outcome.Resolved? ==>
        && ok
        && error == old(error)
        && store.State() == old(store.State()).(currentNodes :=
             UpdatedNodes(old(store.currentNodes), nodeId, CompletedPatch(outcome.value.completed)))
      ensures Truthy(old(store.currentPathId)) && outcome.Rejected? ==>
        && !ok
        && error == Some(ErrorMessage(outcome.thrown, UpdateNodeFallback))
        && store.State() == old(store.State())
    {
      if !Truthy(store.currentPathId) {
        error := Some(NoActivePath);
        return None, false;
      }
      request := Some(PatchNodeCompletion(store.currentPathId.value, nodeId, completed));
      match outcome
      case Resolved(response) =>
        store.UpdateNodeInList(nodeId, CompletedPatch(response.completed));
        ok := true;
      case Rejected(err) =>
        error := Some(ErrorMessage(err, UpdateNodeFallback));
        ok := false;
    }
  }
}
