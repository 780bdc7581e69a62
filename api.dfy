/**
 * The shapes exchanged with the backend, reduced to values: the node record, a
 * partial node used as an update, the two path responses, the requests a hook may
 * send, and the outcome of awaiting one (a response, or a thrown value).
 */
module Api {
  import opened Wrappers

  /** A node as the client sees it; `markdown_content` and `boilerplate` may be absent. */
  datatype Node = Node(
    node_id: string,
    title: string,
    description: string,
    content: string,
    order: int,
    completed: bool,
    path_id: string,
    markdown_content: Option<string>,
    boilerplate: Option<string>)

  /** `Partial<Node>`: every field may be absent; a present field overrides the node's. */
  datatype NodePatch = NodePatch(
    node_id: Option<string>,
    title: Option<string>,
    description: Option<string>,
    content: Option<string>,
    order: Option<int>,
    completed: Option<bool>,
    path_id: Option<string>,
    markdown_content: Option<string>,
    boilerplate: Option<string>)

  /** The patch `{completed: c}`. */
  function CompletedPatch(c: bool): NodePatch {
    NodePatch(None, None, None, None, None, Some(c), None, None, None)
  }

  /** `{...node, ...updates}`: present fields of the patch win, the rest are the node's. */
  function Merge(n: Node, u: NodePatch): Node {
    Node(
      u.node_id.GetOr(n.node_id),
      u.title.GetOr(n.title),
      u.description.GetOr(n.description),
      u.content.GetOr(n.content),
      u.order.GetOr(n.order),
      u.completed.GetOr(n.completed),
      u.path_id.GetOr(n.path_id),
      if u.markdown_content.Some? then u.markdown_content else n.markdown_content,
      if u.boilerplate.Some? then u.boilerplate else n.boilerplate)
  }

  /** The patch `{}`. */
  const EmptyPatch: NodePatch := NodePatch(None, None, None, None, None, None, None, None, None)

  function Latest<T>(a: Option<T>, b: Option<T>): Option<T> {
    if b.Some? then b else a
  }

  /** `{...u, ...v}`: the fields of `v` win where present, the fields of `u` elsewhere. */
  function Combine(u: NodePatch, v: NodePatch): NodePatch {
    NodePatch(
      Latest(u.node_id, v.node_id),
      Latest(u.title, v.title),
      Latest(u.description, v.description),
      Latest(u.content, v.content),
      Latest(u.order, v.order),
      Latest(u.completed, v.completed),
      Latest(u.path_id, v.path_id),
      Latest(u.markdown_content, v.markdown_content),
      Latest(u.boilerplate, v.boilerplate))
  }

  /** Merging `{completed: c}` changes the completion flag and nothing else. */
  lemma MergeCompletedPatch(n: Node, c: bool)
    ensures Merge(n, CompletedPatch(c)) == n.(completed := c)
  {
  }

  datatype GeneratePathResponse = GeneratePathResponse(path_id: string, nodes: seq<Node>, message: Option<string>)

  datatype GetPathResponse = GetPathResponse(path_id: string, prompt: string, nodes: seq<Node>, created_at: string)

  /** The backend calls a hook can make, with their arguments. */
  datatype Request =
    | PostGeneratePath(prompt: string)
    | GetPathById(pathId: string)
    | GetNodeById(pathId: string, nodeId: string)
    | PatchNodeCompletion(pathId: string, nodeId: string, completed: bool)

  /** A thrown value: an `Error` instance (with its message) or anything else. */
  datatype Thrown = ErrorInstance(message: string) | OtherValue

  /** How an awaited call ends. */
  datatype Outcome<+T> = Resolved(value: T) | Rejected(thrown: Thrown)

  /** `err instanceof Error ? err.message : fallback`. */
  function ErrorMessage(err: Thrown, fallback: string): string {
    match err
    case ErrorInstance(message) => message
    case OtherValue => fallback
  }
}
