/**
 * The generate-path hook: raise `isGenerating` and the store's loading flag, send the
 * prompt, write the generated path into the store on success or record a message on
 * failure, and lower both flags whatever happened.
 */
module UseGeneratePath {
  import opened Wrappers
  import opened Api
  import opened Store

  const GenerateFallback: string := "Error generando el path"

  class GeneratePathHook {
    var isGenerating: bool
    var error: Option<string>
    const store: PathStore

    constructor (store: PathStore)
      ensures this.store == store && !isGenerating && error == None
    {
      this.store := store;
      isGenerating := false;
      error := None;
    }

    /** `generatePath` up to the await. */
    method BeginGeneratePath(prompt: string) returns (request: Request)
      modifies this, store
      ensures isGenerating && error == None
      ensures store.State() == old(store.State()).(isLoading := true)
      ensures request == PostGeneratePath(prompt)
    {
      isGenerating := true;
      store.SetLoading(true);
      error := None;
      request := PostGeneratePath(prompt);
    }

    /** `generatePath` after the await: `try`/`catch`, then the `finally` that lowers both flags. */
    method SettleGeneratePath(outcome: Outcome<GeneratePathResponse>) returns (r: Option<GeneratePathResponse>)
      modifies this, store
      ensures !isGenerating && !store.isLoading
      ensures outcome.Resolved? ==>
        && r == Some(outcome.value)
        && error == old(error)
        && store.State() == old(store.State()).(currentPathId := Some(outcome.value.path_id),
             currentNodes := outcome.value.nodes, error := None, isLoading := false)
      ensures outcome.Rejected? ==>
        && r == None
        && error == Some(ErrorMessage(outcome.thrown, GenerateFallback))
        && store.State() == old(store.State()).(isLoading := false)
    {
      match outcome {
        case Resolved(response) =>
          store.SetCurrentPath(response.path_id, response.nodes);
          r := Some(response);
        case Rejected(err) =>
          error := Some(ErrorMessage(err, GenerateFallback));
          r := None;
      }
      isGenerating := false;
      store.SetLoading(false);
    }

    /** One whole `generatePath(prompt)` call whose request ends in `outcome`. */
    method GeneratePath(prompt: string, outcome: Outcome<GeneratePathResponse>)
      returns (request: Request, r: Option<GeneratePathResponse>)
      modifies this, store
      ensures request == PostGeneratePath(prompt)
      ensures !isGenerating && !store.isLoading
      ensures outcome.Resolved? ==>
        && r == Some(outcome.value)
        && error == None
        && store.State() == old(store.State()).(currentPathId := Some(outcome.value.path_id),
             currentNodes := outcome.value.nodes, error := None, isLoading := false)
      ensures outcome.Rejected? ==>
        && r == None
        && error == Some(ErrorMessage(outcome.thrown, GenerateFallback))
        && store.State() == old(store.State()).(isLoading := false)
    {
      request := BeginGeneratePath(prompt);
      r := SettleGeneratePath(outcome);
    }
  }
}
