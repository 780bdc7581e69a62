# Learning-path core in Dafny

A model of the behavioural core of a learning-path application. Users type a prompt, the
backend generates a path of programming exercises ("nodes"), and the browser client shows
one node at a time in a workspace.

The model has two halves.

**Client (TypeScript).**
- The session store (`PathStore`). It is one mutable record with six actions.
- Four data hooks, modelled as sequential state transitions over the hook's own state and
  the store:
  - `useNode` (`NodeHook`)
  - `useGeneratePath` (`GeneratePathHook`)
  - `usePath` (`PathHook`)
  - `useNodeDetail` (`NodeDetailHook`)
- The pure view selector of the node workspace (`NodeWorkspace.Render`).

The backend call a hook awaits is not performed. Its outcome is a parameter: a response, or
a thrown value that is or is not an `Error` with a message. Each method also returns the
request it would send, and `None` when it sends nothing. `fetchNode`, `generatePath`,
`fetchPath` and `fetchNodeDetail` are each split at their `await` into a `Begin…` method and
a `Settle…` method, and a third method composes the two. `updateNodeCompletion` is one
method. JavaScript's `||` and ToBoolean on nullable strings (section 7.1.2 of ECMA-262) are
`Js.Truthy` and `Js.OrElse`. Rendering an integer of magnitude up to 2^53 in JSX is `Js.IntegerToString`, and its
inverse `Js.ParseInteger` is proved.

**Backend (Go).**
- The domain entities with their status machines (`Entity`).
- The persistence models and their conversions (`Database`).
- The two tables as sequences of rows in a `Db` object (`Tables`).
- The two repositories as methods over it (`Repository`).

Each SQL clause is a sequence function:
- `WHERE` is `Collections.Filter`.
- `ORDER BY` is `Collections.SortBy`, a stable insertion sort proved sorted and a
  permutation.
- `First` is `Collections.FindFirst`.
- `UPDATE … WHERE` is `Collections.MapWhere`.

`Db.Valid()` states that primary keys are unique and that stored path rows carry no
association rows. An insert that would repeat a key fails with `DuplicateKey` and leaves
the table as it was. Go's `int` is the 64-bit subset type `GoInt`, and `UnlockNext`'s
`currentPosition + 1` wraps. `time.Now()` is a `now` parameter.

Modules, one per file: `Wrappers`, `Collections`, `Js`, `Api`, `Store`, `UseNode`,
`UseGeneratePath`, `UsePath`, `UseNodeDetail`, `NodeWorkspace`, `Entity`, `Database`,
`Tables`, `Repository`.

## Model

| member | source | states |
|---|---|---|
| Collections.Filter | backend/internal/adapter/repository/postgres_node_repository.go:59-62 | `WHERE`: every element kept satisfies the test, and each element occurs as often as in the input if it passes, otherwise not at all |
| Collections.FilterMembers | backend/internal/adapter/repository/postgres_path_repository.go:70-73 | an element is in the filtered list iff it is in the input and passes the test |
| Collections.MapWhere | frontend/core/src/shared/store/pathStore.ts:35-37 | same length; position i holds `f(s[i])` when `s[i]` passes the test, else `s[i]` unchanged |
| Collections.FindFirst | backend/internal/adapter/repository/postgres_node_repository.go:46 | none iff no element matches; otherwise the value is at a matching index with no match before it |
| Collections.FindFirstAfterNoMatch | backend/internal/adapter/repository/postgres_path_repository.go:38 | a prefix with no match does not change the first match |
| Collections.InsertBy | backend/internal/adapter/repository/postgres_node_repository.go:61 | inserting into a sorted list keeps it sorted and adds exactly one copy of the element |
| Collections.SortBy | backend/internal/adapter/repository/postgres_node_repository.go:61 | `ORDER BY key ASC`: the result is sorted by the key and a permutation of the input |
| Js.OrElse | frontend/core/src/features/node-workspace/components/NodeWorkspace.tsx:49-50 | `a \|\| b` evaluates to one of its operands, and the result is truthy exactly when `a` is truthy or `b` is non-empty |
| Js.NatToDecimal | frontend/core/src/features/node-workspace/components/NodeWorkspace.tsx:60 | the decimal text of a number is non-empty, all digits, and has no leading zero unless the number is 0 |
| Js.ParseNatToDecimal | frontend/core/src/features/node-workspace/components/NodeWorkspace.tsx:60 | reading the decimal digits of n back gives n |
| Js.IntegerToStringRoundTrip | frontend/core/src/features/node-workspace/components/NodeWorkspace.tsx:60 | parsing the printed form of an integer order, sign included, gives the order back |
| Js.IntegerToStringInjective | frontend/core/src/features/node-workspace/components/NodeWorkspace.tsx:60 | two orders that print the same are equal |
| Api.MergeCompletedPatch | Frontend/core/src/shared/hooks/useNode.ts:41 | merging `{completed: c}` into a node sets `completed` to c and changes no other field |
| Store.UpdatedNodesPointwise | frontend/core/src/shared/store/pathStore.ts:33-38 | `updateNodeInList`'s list keeps length and positions; a node with another id is unchanged; a matching node becomes its merge with the patch |
| Store.UpdatedNodesNoMatch | frontend/core/src/shared/store/pathStore.ts:33-38 | with no node carrying the id, the list is unchanged |
| Store.MergeLaws | frontend/core/src/shared/store/pathStore.ts:36 | `{...node, ...updates}`: the empty patch changes nothing, a patch applied twice is applied once, and two patches in a row equal their combined spread `{...u, ...v}` |
| Store.UpdatedNodesTwice | frontend/core/src/shared/store/pathStore.ts:33-38 | two `updateNodeInList` calls for one id equal one call with the combined patch, when the first patch keeps the node's id |
| Store.UpdatedNodesCompletion | frontend/core/src/shared/store/pathStore.ts:33-38 | with the patch `{completed: c}`, matching nodes get `completed := c` and every other node and field stays |
| Store.PathStore.constructor | frontend/core/src/shared/store/pathStore.ts:20-25 | the store starts with no path id, no nodes, no node id, not loading and no error |
| Store.PathStore.SetCurrentPath | frontend/core/src/shared/store/pathStore.ts:27-28 | sets path id and nodes, clears the error, and leaves node id and loading unchanged |
| Store.PathStore.SetCurrentNode | frontend/core/src/shared/store/pathStore.ts:30-31 | records the node id, with no check that the node is in the list; nothing else changes |
| Store.PathStore.UpdateNodeInList | frontend/core/src/shared/store/pathStore.ts:33-38 | only `currentNodes` changes, to the merged list; path id, node id, loading and error are untouched |
| Store.PathStore.SetLoading | frontend/core/src/shared/store/pathStore.ts:40-41 | changes only `isLoading` |
| Store.PathStore.SetError | frontend/core/src/shared/store/pathStore.ts:43-44 | sets the error and also forces `isLoading` to false; nothing else changes |
| Store.PathStore.Reset | frontend/core/src/shared/store/pathStore.ts:46-53 | from any state, returns to exactly the initial state, so a second reset changes nothing |
| UseNode.NodeHook.constructor | Frontend/core/src/shared/hooks/useNode.ts:6-8 | the hook starts not loading and without error, bound to the store |
| UseNode.NodeHook.BeginFetchNode | Frontend/core/src/shared/hooks/useNode.ts:14-18 | raises the loading flag, clears the error, and requests the node by path and node id |
| UseNode.NodeHook.SettleFetchNode | Frontend/core/src/shared/hooks/useNode.ts:17-27 | success returns the node and selects its id in the store; failure returns null, records the message or fallback and leaves the store; loading ends false |
| UseNode.NodeHook.FetchNode | Frontend/core/src/shared/hooks/useNode.ts:10-28 | a whole call: on success it returns the fetched node, sets the store's node id and leaves the error null; on failure it returns null, sets the message or 'Error cargando el nodo' and leaves the store unchanged; loading ends false either way |
| UseNode.NodeHook.UpdateNodeCompletion | Frontend/core/src/shared/hooks/useNode.ts:30-48 | with a falsy store path id: returns false, sets 'No hay un path activo', sends nothing and leaves the store alone. Otherwise it sends the update for the store's path. Success merges only `{completed}` and returns true. Failure returns false, sets the message or fallback and leaves the store. It never touches `isLoading` and never clears an earlier error |
| UseGeneratePath.GeneratePathHook.constructor | Frontend/core/src/shared/hooks/useGeneratePath.ts:6-7 | the hook starts not generating and without error |
| UseGeneratePath.GeneratePathHook.BeginGeneratePath | Frontend/core/src/shared/hooks/useGeneratePath.ts:11-16 | on entry `isGenerating` and the store's `isLoading` are true, the local error is null, and the prompt is posted; nothing else in the store changes |
| UseGeneratePath.GeneratePathHook.SettleGeneratePath | Frontend/core/src/shared/hooks/useGeneratePath.ts:15-26 | success writes the response's path id and nodes into the store, clears the store error and returns the response; failure returns null and records the message or fallback; both flags end false |
| UseGeneratePath.GeneratePathHook.GeneratePath | Frontend/core/src/shared/hooks/useGeneratePath.ts:10-27 | a whole call: success leaves the local error null, stores the response's path and returns it; failure returns null with 'Error generando el path' or the message and leaves the store's path and nodes; both flags end false |
| UsePath.PathHook.constructor | frontend/core/src/shared/hooks/usePath.ts:6-7 | the hook starts not loading and without error |
| UsePath.PathHook.BeginFetchPath | frontend/core/src/shared/hooks/usePath.ts:11-16 | on entry local and store loading are true and the error null; requests the path by id |
| UsePath.PathHook.SettleFetchPath | frontend/core/src/shared/hooks/usePath.ts:15-26 | success stores the response's path id (not the requested id) and nodes and returns the response; failure returns null with message or fallback; both flags end false |
| UsePath.PathHook.FetchPath | frontend/core/src/shared/hooks/usePath.ts:10-27 | a whole call: success stores the response's own path id and nodes and returns the response; failure returns null, records 'Error cargando el path' or the message and leaves the store's path; both loading flags end false |
| UseNodeDetail.AfterFetchOutcomes | frontend/core/src/shared/hooks/useNodeDetail.ts:26-45 | with a falsy id only `node` is cleared; otherwise success gives node, no error and no loading, and failure gives no node, the message or fallback and no loading; a present node always means no error |
| UseNodeDetail.NodeDetailHook.constructor | frontend/core/src/shared/hooks/useNodeDetail.ts:22-24 | no node, not loading, no error, not yet mounted |
| UseNodeDetail.NodeDetailHook.FetchNodeDetail | frontend/core/src/shared/hooks/useNodeDetail.ts:26-45 | the new state is `AfterFetch` of the old one; the node request is sent exactly when both ids are truthy; the no-node-with-error invariant is kept |
| UseNodeDetail.NodeDetailHook.BeginFetch | frontend/core/src/shared/hooks/useNodeDetail.ts:32-36 | raises the loading flag, clears the error, and requests the node for the current ids |
| UseNodeDetail.NodeDetailHook.SettleFetch | frontend/core/src/shared/hooks/useNodeDetail.ts:35-44 | success stores the node with no error; failure records the message or 'Error cargando los detalles del nodo' and clears the node; loading ends false |
| UseNodeDetail.NodeDetailHook.Render | frontend/core/src/shared/hooks/useNodeDetail.ts:47-49 | the effect runs the same fetch as `refetch` on first mount and whenever `pathId` or `nodeId` changes; otherwise nothing is sent and the state stays |
| NodeWorkspace.InstructionsText | frontend/core/src/features/node-workspace/components/NodeWorkspace.tsx:49 | `markdown_content` if non-empty, else `content` if non-empty, else `description`; empty only when all three are |
| NodeWorkspace.EditorSeed | frontend/core/src/features/node-workspace/components/NodeWorkspace.tsx:50 | `boilerplate` if non-empty, else '// Escribe tu código aquí\n'; never empty |
| NodeWorkspace.SubtitleShowsOrder | frontend/core/src/features/node-workspace/components/NodeWorkspace.tsx:60 | the subheader starts with "Ejercicio " and the printed order, which parses back to the order, and ends with '✓ Completado' or 'En progreso' by completion |
| NodeWorkspace.Render | frontend/core/src/features/node-workspace/components/NodeWorkspace.tsx:18-89 | exactly one of spinner, error, not-found and workspace is chosen, each iff its priority condition holds: loading wins even with an error set, then a truthy error, then a null node. The workspace has the title verbatim, panel title "Enunciado" and language "go" |
| NodeWorkspace.EmptyErrorIsIgnored | frontend/core/src/features/node-workspace/components/NodeWorkspace.tsx:29 | an empty error string selects the same view as no error |
| NodeWorkspace.RenderAfterFetch | frontend/core/src/features/node-workspace/components/NodeWorkspace.tsx:16-60 | after a fetch of the hook, success shows the workspace of exactly that node; an `Error` with an empty message shows not-found; any other failure shows its message |
| Entity.PathNodeRef.Unlock | backend/internal/domain/entity/path_node.go:42-47 | the pointee becomes `AfterUnlock(now)`: unlocked with the new time if it was locked, otherwise unchanged |
| Entity.PathNodeRef.Complete | backend/internal/domain/entity/path_node.go:50-55 | the pointee becomes `AfterComplete(now)`: completed with the new time if it was unlocked, otherwise unchanged |
| Entity.StatusPredicatesExclusive | backend/internal/domain/entity/path_node.go:32-39 | `IsUnlocked` and `IsCompleted` are never both true |
| Entity.UnlockTransition | backend/internal/domain/entity/path_node.go:42-47 | a locked node becomes unlocked; an unlocked or completed (or unknown) node is left as it is |
| Entity.CompleteTransition | backend/internal/domain/entity/path_node.go:50-55 | an unlocked node becomes completed; any other node, locked included, is left as it is |
| Entity.TransitionsChangeOnlyStatusAndTime | backend/internal/domain/entity/path_node.go:42-55 | both transitions change only `Status` and `UpdatedAt` |
| Entity.TransitionsIdempotent | backend/internal/domain/entity/path_node.go:42-55 | each transition repeated changes nothing more, and completed is terminal for both |
| Entity.UnlockThenComplete | backend/internal/domain/entity/path_node.go:42-55 | a locked node unlocked then completed ends completed, stamped with the second time |
| Entity.TransitionsMoveForward | backend/internal/domain/entity/path_node.go:8-12 | on locked → unlocked → completed, neither transition moves backwards or more than one stage |
| Entity.LearningPathRef.MarkAsCompleted | backend/internal/domain/entity/learning_path.go:34-37 | the pointee becomes `AfterMarkAsCompleted(now)`, with no guard on the old status |
| Entity.MarkAsCompletedEffect | backend/internal/domain/entity/learning_path.go:29-37 | from any status (archived included) the path becomes completed and not active; repeating keeps the status; only `Status` and `UpdatedAt` change |
| Database.FromNodeEntity | backend/internal/infrastructure/database/models.go:105-121 | the row of an entity converts back to that entity field by field, carrying the status string unchanged |
| Database.NodeModelRoundTrip | backend/internal/infrastructure/database/models.go:86-121 | a row converted to an entity and back is the same row; the status string is carried unchanged |
| Database.NodeListsRoundTrip | backend/internal/infrastructure/database/models.go:86-121 | converting a whole list of rows or entities there and back gives the list |
| Database.LearningPathModel.ToEntity | backend/internal/infrastructure/database/models.go:28-48 | the index loop yields `PathEntityOf` the row: scalars copied, the i-th node the conversion of the i-th row node |
| Database.PathEntityNodes | backend/internal/infrastructure/database/models.go:39-45 | the converted path has as many nodes as the row loaded, each converted at its index; none loaded gives an empty list |
| Database.FromPathEntity | backend/internal/infrastructure/database/models.go:51-61 | copies every scalar (status string unchanged) and drops `Nodes`; converting back gives the entity without nodes |
| Database.PathModelRoundTrip | backend/internal/infrastructure/database/models.go:28-61 | a path row without loaded nodes survives the trip to an entity and back |
| Database.TableNames | backend/internal/infrastructure/database/models.go:23-83 | the table names are "path_nodes" and "learning_paths", and they differ |
| Tables.NodeByID | backend/internal/adapter/repository/postgres_node_repository.go:46 | `WHERE id = ?` with `First`: none iff no row has the id; otherwise a stored row with that id |
| Tables.NodeByIDIsTheRow | backend/internal/adapter/repository/postgres_node_repository.go:44-54 | with unique ids the row found is the one stored under the id |
| Tables.RowsOfPath | backend/internal/adapter/repository/postgres_node_repository.go:59-60 | exactly the rows with that `path_id`, with their multiplicities |
| Tables.NodesOfPathSpec | backend/internal/adapter/repository/postgres_node_repository.go:59-62 | the ordered query returns a permutation of the path's rows, all of the path, by nondecreasing position |
| Tables.NodeEntitiesOfPath | backend/internal/adapter/repository/postgres_node_repository.go:57-73 | the converted entities map back to exactly the path's rows, all in the path, by nondecreasing position |
| Tables.WithNodeStatusEffect | backend/internal/adapter/repository/postgres_node_repository.go:76-82 | only the status of rows with that id changes; an unknown id changes nothing; ids stay unique |
| Tables.NextPosition | backend/internal/adapter/repository/postgres_node_repository.go:86 | `currentPosition + 1` on a 64-bit Go int: the result is congruent to the exact sum modulo 2^64 (two's-complement wrap-around) |
| Tables.NextPositionUnique | backend/internal/adapter/repository/postgres_node_repository.go:86 | exactly one 64-bit value is congruent to `currentPosition + 1`, so the wrapped position is determined |
| Tables.UnlockedNextEffect | backend/internal/adapter/repository/postgres_node_repository.go:85-92 | exactly the locked rows of the path at the next position become unlocked; every other row is left exactly as it was |
| Tables.UnlockedNextIdempotent | backend/internal/adapter/repository/postgres_node_repository.go:85-92 | running `UnlockNext` twice is the same as once |
| Tables.UnlockedNextKeepsIds | backend/internal/adapter/repository/postgres_node_repository.go:85-92 | `UnlockNext` keeps the primary key unique |
| Tables.UnlockNextAfterFirst | backend/internal/adapter/repository/postgres_repository_test.go:346-367 | after position 1, the locked node at 2 is unlocked and the one at 3 stays locked |
| Tables.PathByID | backend/internal/adapter/repository/postgres_path_repository.go:38 | none iff no path row has the id; otherwise a stored row with that id |
| Tables.CreateThenGetByID | backend/internal/adapter/repository/postgres_path_repository.go:29-46 | after inserting an entity under a fresh id, looking it up finds its row, whose entity has the same scalars and no nodes |
| Tables.RowsOfUser | backend/internal/adapter/repository/postgres_path_repository.go:70-71 | exactly the rows of that user, with their multiplicities |
| Tables.PathsOfUserSpec | backend/internal/adapter/repository/postgres_path_repository.go:70-73 | a permutation of the user's rows, all of that user, newest `created_at` first |
| Tables.PathsOfUserMembers | backend/internal/adapter/repository/postgres_path_repository.go:70-73 | a row is returned by the user query iff it is stored and belongs to that user |
| Tables.PathsOfUserAreStored | backend/internal/adapter/repository/postgres_path_repository.go:68-84 | every row the user query returns is a stored row |
| Tables.WithPathStatusEffect | backend/internal/adapter/repository/postgres_path_repository.go:87-93 | only the status of the row with that id changes; unique ids and node-free rows are kept |
| Repository.PostgresNodeRepository.constructor | backend/internal/adapter/repository/postgres_node_repository.go:23-25 | the repository works on the given database |
| Repository.PostgresNodeRepository.CreateBatch | backend/internal/adapter/repository/postgres_node_repository.go:28-41 | an empty list is a no-op without error; otherwise all rows are appended when the keys stay unique, and none when they would not (the error case) |
| Repository.PostgresNodeRepository.GetByID | backend/internal/adapter/repository/postgres_node_repository.go:44-54 | none (not an error) iff no row has the id; otherwise an entity with that id whose row is stored |
| Repository.PostgresNodeRepository.GetByPathID | backend/internal/adapter/repository/postgres_node_repository.go:57-73 | the entities of the ordered query: their rows are exactly the path's rows, all of the path, by nondecreasing position |
| Repository.PostgresNodeRepository.ConvertRows | backend/internal/adapter/repository/postgres_node_repository.go:68-72 | the index loop converts row i to entity i, and the entities map back to the rows |
| Repository.PostgresNodeRepository.UpdateStatus | backend/internal/adapter/repository/postgres_node_repository.go:76-82 | the node table becomes `WithNodeStatus` of the old one, the path table is untouched, and the key stays unique |
| Repository.PostgresNodeRepository.UnlockNext | backend/internal/adapter/repository/postgres_node_repository.go:85-92 | the node table becomes `UnlockedNext` of the old one, the path table is untouched, and the key stays unique |
| Repository.PostgresPathRepository.constructor | backend/internal/adapter/repository/postgres_path_repository.go:24-26 | the repository works on the given database |
| Repository.PostgresPathRepository.Create | backend/internal/adapter/repository/postgres_path_repository.go:29-33 | succeeds iff the id is fresh, appending the entity's row without its nodes; otherwise fails and changes nothing |
| Repository.PostgresPathRepository.GetByID | backend/internal/adapter/repository/postgres_path_repository.go:36-46 | none iff no row has the id; otherwise the stored row's entity with that id and no nodes |
| Repository.PostgresPathRepository.GetByIDWithNodes | backend/internal/adapter/repository/postgres_path_repository.go:49-65 | none iff unknown id; otherwise the stored path with every node of its id, by ascending position |
| Repository.PostgresPathRepository.GetByUserID | backend/internal/adapter/repository/postgres_path_repository.go:68-84 | one entity per row of the ordered query, mapping back to it: only the user's paths, without nodes, newest `created_at` first |
| Repository.PostgresPathRepository.UpdateStatus | backend/internal/adapter/repository/postgres_path_repository.go:87-93 | the path table becomes `WithPathStatus` of the old one; nodes untouched; invariants kept |

## Left out

- HTTP, the axios client, its base URL and timeout, and the backend server in `backend/cmd/api/main.go`. These are I/O. A call's result is a method parameter, and the request is a returned value.
- Out-of-order completion of concurrent hook calls, React scheduling and re-render batching. These are concurrency. Each hook call is one sequential step.
- Stale closures. `updateNodeCompletion` captures `currentPathId` at render time. The model reads the store's value when the call starts, which is the same value when no render happened in between.
- Js.IntegerToString: agrees with Number::toString only for integer orders with |order| <= 2^53. Above that, most integers are not JavaScript numbers at all: the double is rounded, and the printed text is the shortest digit string that reads back to that double, padded with zeros. For 2^64, `IntegerToString` gives 18446744073709551616 while JSX shows 18446744073709552000. Fractional orders and `NaN` are also left out. All of these need floating point.
- Store.PathStore.UpdateNodeInList: a `Partial<Node>` whose field is present but explicitly `undefined` overwrites that field with `undefined`. The model's patch has only present or absent fields.
- The database engine:
  - column defaults for zero values ('active', 'locked', 100)
  - `autoCreateTime`/`autoUpdateTime`
  - errors other than a repeated primary key and record-not-found
  - context cancellation
  - the 32-bit range of the `int` columns
  - what the foreign key from `path_nodes.path_id` enforces
  - the transaction as a mechanism

  The database runs outside this program, so these are left out. `CreateBatch`'s all-or-nothing effect is modelled.
- `ORDER BY` ties. SQL leaves the order among rows with equal position or equal `created_at` unspecified. The model fixes one stable order, and its lemmas state only what any order satisfies.
- `First`'s implicit `ORDER BY` primary key is not modelled. With unique ids there is at most one row per id, so it does not matter.
- The wall clock. `time.Now()` is the `now` parameter, and `time.Time` is an integer instant.
- Nil pointers in `CreateBatch`'s list, and the nil-versus-empty distinction of Go slices. Both are written as values: an absent node list is `[]`.
- `CodeEditor.tsx`, `InstructionsPanel.tsx`, `PathGenerator.tsx` (including its `prompt.trim()` submit guard) and `App.tsx`. These are UI wrappers around libraries outside this program. The trim guard depends on ECMAScript's whitespace set.
- The repository interfaces in `backend/internal/domain/repository/*.go`. They only declare signatures.
