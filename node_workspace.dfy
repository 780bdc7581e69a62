/**
 * What the node workspace shows for the node-detail hook's state: a spinner, an error
 * message, a not-found notice, or the three-pane workspace with its header, the
 * instructions text and the editor's starting code.
 */
module NodeWorkspace {
  import opened Wrappers
  import opened Api
  import opened Js
  import UseNodeDetail

  const LoadingText: string := "Cargando ejercicio..."
  const ErrorHeading: string := "Error"
  const NotFoundText: string := "No se encontró el ejercicio"
  const InstructionsTitle: string := "Enunciado"
  const EditorLanguage: string := "go"
  const DefaultBoilerplate: string := "// Escribe tu código aquí\n"
  const CompletedLabel: string := "✓ Completado"
  const InProgressLabel: string := "En progreso"

  /** The props handed to the instructions panel and to the code editor. */
  datatype InstructionsProps = InstructionsProps(markdownContent: string, title: string)
  datatype EditorProps = EditorProps(initialCode: string, language: string)

  datatype View =
    | Spinner(text: string)
    | ErrorScreen(heading: string, message: string)
    | NotFound(text: string)
    | Workspace(title: string, subtitle: string, instructions: InstructionsProps, editor: EditorProps)

  /** `node.markdown_content || node.content || node.description`. */
  function InstructionsText(n: Node): (t: string)
    ensures (n.markdown_content.Some? && t == n.markdown_content.value) || t == n.content || t == n.description
    ensures Truthy(n.markdown_content) ==> t == n.markdown_content.value
    ensures !Truthy(n.markdown_content) && n.content != "" ==> t == n.content
    ensures !Truthy(n.markdown_content) && n.content == "" ==> t == n.description
    ensures t == "" <==> !Truthy(n.markdown_content) && n.content == "" && n.description == ""
  {
    OrElse(n.markdown_content, OrElse(Some(n.content), n.description))
  }

  /** `node.boilerplate || '// Escribe tu código aquí\n'`: the editor never starts empty. */
  function EditorSeed(n: Node): (code: string)
    ensures code != ""
    ensures Truthy(n.boilerplate) ==> code == n.boilerplate.value
    ensures !Truthy(n.boilerplate) ==> code == DefaultBoilerplate
  {
    OrElse(n.boilerplate, DefaultBoilerplate)
  }

  /** The header's second line: `Ejercicio {order} • {status}`. */
  function Subtitle(n: Node): string {
    "Ejercicio " + IntegerToString(n.order) + " • " + (if n.completed then CompletedLabel else InProgressLabel)
  }

  /**
   * The subtitle starts with `Ejercicio ` and the printed order, from which the order
   * can be read back, and ends with the status label.
   */
  lemma SubtitleShowsOrder(n: Node)
    ensures var prefix := "Ejercicio " + IntegerToString(n.order);
      && Subtitle(n)[..|prefix|] == prefix
      && ParseInteger(Subtitle(n)[|"Ejercicio "|..|prefix|]) == n.order
    ensures var status := if n.completed then CompletedLabel else InProgressLabel;
      Subtitle(n)[|Subtitle(n)| - |status|..] == status
  {
    var digits := IntegerToString(n.order);
    var prefix := "Ejercicio " + digits;
    assert Subtitle(n)[|"Ejercicio "|..|prefix|] == digits;
    IntegerToStringRoundTrip(n.order);
  }

  /** The loaded layout for a node. */
  function LoadedView(n: Node): View {
    Workspace(n.title, Subtitle(n), InstructionsProps(InstructionsText(n), InstructionsTitle),
              EditorProps(EditorSeed(n), EditorLanguage))
  }

  /**
   * The render-state selection. Exactly one of the four views is chosen, by priority:
   * loading first (even with an error set), then a truthy error, then a missing node;
   * the workspace shows the title verbatim, the fixed panel title and the fixed language.
   */
  function Render(node: Option<Node>, isLoading: bool, error: Option<string>): (v: View)
    ensures v.Spinner? <==> isLoading
    ensures v.ErrorScreen? <==> !isLoading && Truthy(error)
    ensures v.NotFound? <==> !isLoading && !Truthy(error) && node.None?
    ensures v.Workspace? <==> !isLoading && !Truthy(error) && node.Some?
    ensures v.ErrorScreen? ==> v.message == error.value
    ensures v.Workspace? ==>
      && v.title == node.value.title
      && v.instructions.title == InstructionsTitle
      && v.editor.language == EditorLanguage
  {
    if isLoading then Spinner(LoadingText)
    else if Truthy(error) then ErrorScreen(ErrorHeading, error.value)
    else if node.None? then NotFound(NotFoundText)
    else LoadedView(node.value)
  }

  /** An empty error message counts as no error: the screen is what it would be with `null`. */
  lemma EmptyErrorIsIgnored(node: Option<Node>, isLoading: bool)
    ensures Render(node, isLoading, Some("")) == Render(node, isLoading, None)
  {
  }

  /**
   * Rendering the node-detail hook after a completed fetch: a resolved fetch shows the
   * workspace for exactly that node; a rejection whose `Error` has an empty message shows
   * the not-found notice rather than an error; any other rejection shows its message.
   */
  lemma RenderAfterFetch(s: UseNodeDetail.DetailState, pathId: Option<string>, nodeId: Option<string>, outcome: Outcome<Node>)
    requires UseNodeDetail.CanFetch(pathId, nodeId)
    ensures var t := UseNodeDetail.AfterFetch(s, pathId, nodeId, outcome);
      var v := Render(t.node, t.isLoading, t.error);
      && (outcome.Resolved? ==> v == LoadedView(outcome.value))
      && (outcome.Rejected? && outcome.thrown == ErrorInstance("") ==> v.NotFound?)
      && (outcome.Rejected? && outcome.thrown != ErrorInstance("") ==>
            v == ErrorScreen(ErrorHeading, ErrorMessage(outcome.thrown, UseNodeDetail.DetailFallback)))
  {
  }
}
