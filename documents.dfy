/** The entities the scheduler talks about: documents, windows and build actions,
    and the fixed configuration of the package (the allowed file extensions and
    the two time constants). Times are integer milliseconds. */
module Documents {

  datatype Option<T> = None | Some(value: T)

  /** An editor document, referred to by identity. `extension` is what the file
      name's extension is (the leading dot included, as `Path.GetExtension`
      returns it). Whether the document has unsaved changes is editor state, not
      part of its identity: see `Host.Editor.unsaved`. */
  datatype Document = Document(id: nat, extension: string)

  /** An editor window: the window of a document, or one that holds none
      (a tool window, whose `Document` property is null). */
  datatype Window = DocumentWindow(document: Document) | ToolWindow(handle: nat)

  /** The build actions the host reports with a build's begin and end. */
  datatype BuildAction = Build | RebuildAll | Clean | Deploy

  /** The file extensions eligible for reformatting, compared exactly (case matters). */
  const AllowedFileExtensions: seq<string> := [".cs", ".xaml", ".vb", ".js", ".ts", ".css", ".html", ".xml"]

  /** The period of the background timer; also the time a save is left to settle. */
  const TimerInterval: int := 1000

  /** How long after the start of a reformat pass new saves are discarded. */
  const Cooldown: int := 5000

  /** Build, rebuild-all and deploy move the build depth; a clean does not. */
  predicate MovesBuildDepth(action: BuildAction) {
    action.Build? || action.RebuildAll? || action.Deploy?
  }

  /** The document shown in `window`, if there is a window and it shows one. */
  function DocumentOf(window: Option<Window>): (r: Option<Document>) {
    if window.Some? && window.value.DocumentWindow? then Some(window.value.document) else None
  }
}
