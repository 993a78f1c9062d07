/**
 * The records of the System Operator: the virtual filesystem's nodes, the
 * container that owns one filesystem, and its build history.
 */
module Types {

  datatype Option<+T> = None | Some(value: T)

  /**
   * A node of the virtual filesystem. A directory's children are the entries
   * of a JavaScript object: a key per child, kept in insertion order (the
   * order `Object.values` reports them in).
   */
  datatype FsNode =
    | File(name: string, content: string)
    | Directory(name: string, children: seq<Entry>)

  /** One own property of a directory's `children` object. */
  datatype Entry = Entry(key: string, node: FsNode)

  /** The life-cycle states a container's status moves through. */
  datatype Status = Initialized | Installing | Building | Running | Error | Success

  datatype Action = Create | Command | FeatureAdd | ErrorAction

  datatype RunOutcome = Succeeded | Failed

  /** The three commands the life-cycle buttons run; `Lifecycle.CommandText` gives each one's text. */
  datatype NpmCommand = Install | Build | Start

  /** The message a finished command records; `Lifecycle.NoteText` gives its text. */
  datatype Note = BuildSucceeded | SimulatedError(failed: NpmCommand)

  /** The base template and add-ons chosen for a container. */
  datatype Templates = Templates(base: string, ui: seq<string>, datastore: seq<string>)

  /**
   * The `details` of a history entry: a command with its outcome and message
   * once it has finished, or the chosen templates of a `create` entry.
   */
  datatype Details =
    | CommandDetails(command: NpmCommand, outcome: Option<RunOutcome>, message: Option<Note>)
    | TemplateDetails(templates: Templates)

  /** The operator every container and every history entry is attributed to. */
  const Operator: string := "andoy"

  datatype HandoverEntry = HandoverEntry(action: Action, author: string, at: string, details: Details)

  /** One simulated build environment, owning a filesystem and a current path. */
  datatype Container = Container(
    id: string,
    operator: string,
    prompt: string,
    chosenTemplates: Templates,
    status: Status,
    createdAt: string,
    history: seq<HandoverEntry>,
    filesystem: FsNode,
    currentPath: string)
}
