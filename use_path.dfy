/**
 * The path hook: `fetchPath` follows the same flag/try/catch/finally sequence as path
 * generation but asks for an existing path. The store takes the path id carried by the
 * response, not the id that was asked for.
 */
module UsePath {
  import opened Wrappers
  import opened Api
  import opened Store

  const FetchPathFallback: string := "Error cargando el path"

  class PathHook {
    var isLoading: bool
    var error: Option<string>
    const store: PathStore

    constructor (store: PathStore)
      ensures this.store == store && !isLoading && error == None
    {
      this.store := store;
      isLoading := false;
      error := None;
    }

    /** `fetchPath` up to the await. */
    method BeginFetchPath(pathId: string) returns (request: Request)
      modifies this, store
      ensures isLoading && error == None
      ensures store.State() == old(store.State()).(isLoading := true)
      ensures request == GetPathById(pathId)
    {
      isLoading := true;
      store.SetLoading(true);
      error := None;
      request := GetPathById(pathId);
    }

    /** `fetchPath` after the await. */
    method SettleFetchPath(outcome: Outcome<GetPathResponse>) returns (r: Option<GetPathResponse>)
      modifies this, store
      ensures !isLoading && !store.isLoading
      ensures outcome.Resolved? ==>
        && r == Some(outcome.value)
        && error == old(error)
        && store.State() == old(store.State()).(currentPathId := Some(outcome.value.path_id),
             currentNodes := outcome.value.nodes, error := None, isLoading := false)
      ensures outcome.Rejected? ==>
        && r == None
        && error == Some(ErrorMessage(outcome.thrown, FetchPathFallback))
        && store.State() == old(store.State()).(isLoading := false)
    {
      match outcome {
        case Resolved(response) =>
          store.SetCurrentPath(response.path_id, response.nodes);
          r := Some(response);
        case Rejected(err) =>
          error := Some(ErrorMessage(err, FetchPathFallback));
          r := None;
      }
      isLoading := false;
      store.SetLoading(false);
    }

    /** One whole `fetchPath(pathId)` call whose request ends in `outcome`. */
    method FetchPath(pathId: string, outcome: Outcome<GetPathResponse>)
      returns (request: Request, r: Option<GetPathResponse>)
      modifies this, store
      ensures request == GetPathById(pathId)
      ensures !isLoading && !store.isLoading
      ensures outcome.Resolved? ==>
        && r == Some(outcome.value)
        && error == None
        && store.State() == old(store.State()).(currentPathId := Some(outcome.value.path_id),
             currentNodes := outcome.value.nodes, error := None, isLoading := false)
      ensures outcome.Rejected? ==>
        && r == None
        && error == Some(ErrorMessage(outcome.thrown, FetchPathFallback))
        && store.State() == old(store.State()).(isLoading := false)
    {
      request := BeginFetchPath(pathId);
      r := SettleFetchPath(outcome);
    }
  }
}
