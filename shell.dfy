/**
 * The container terminal's command dispatcher (components/ContainerCard.tsx,
 * lines 56-212). One input line maps the container and the transcript to a
 * new container and transcript; `Dispatch` is the pure step and
 * `Terminal.ExecuteCommand` the imperative one that reassigns its output.
 */
module Shell {
  import opened Text
  import opened Types
  import opened Vfs

  /** The scripts `php` and `python` look for. */
  datatype Script = Php | Python

  /** The errors a command reports, one per message the terminal prints. */
  datatype Fault =
    | NotADirectory(path: string)            // `ls` on a current path that is no directory
    | NotAFile(operand: Option<string>)      // `cat` on a path that names no file
    | NoSuchDirectory(target: string)        // `cd` to a path that names no directory
    | MkdirMissingOperand
    | InvalidDirectoryName(name: string)
    | FileExists(name: string)               // `mkdir` on a name the directory holds
    | TouchMissingOperand
    | InvalidFileName(name: string)
    | AiFailure(message: string)             // the assistant's call threw
    | CommandNotFound(word: string)

  /**
   * What a command renders in the transcript. The text of each form is given
   * by `FaultText`, `ScriptText` and `FileShown` below.
   */
  datatype Output =
    | WorkingDirectory(path: string)         // `pwd`
    | Listing(names: seq<string>)            // `ls`: the child names, in key order
    | HelpText                               // the static list of commands
    | FileText(content: string)              // `cat`: the file's content in a <pre>
    | AiText(text: string)                   // `ai`: the assistant's reply
    | ScriptRun(script: Script, found: bool) // `php` and `python`
    | Failure(fault: Fault)

  /** One transcript entry: the line as typed and what it printed. */
  datatype Line = Line(input: string, output: Output)

  /** How the assistant's call ended: a reply, or a rejection with its message. */
  datatype AiAnswer = Answer(text: string) | Rejected(message: string)

  /** The assistant, given the prompt, the filesystem and the current path. */
  type Assistant = (string, FsNode, string) -> AiAnswer

  /** The step's result: `clear`, or the new container and the output (none for silence). */
  datatype Outcome = Cleared | Done(container: Container, output: Option<Output>)

  /** `args[0]`, which is `undefined` when the line has no argument. */
  function Arg(args: seq<string>): Option<string> {
    if |args| == 0 then None else Some(args[0])
  }

  /** The first argument, where a missing or empty one takes the fallback. */
  function OrElse(arg: Option<string>, fallback: string): string {
    if arg.None? || arg.value == "" then fallback else arg.value
  }

  /** The first argument as a template string shows it: `undefined` when it is missing. */
  function Show(arg: Option<string>): string {
    if arg.None? then "undefined" else arg.value
  }

  /** The name holds a slash or a backslash. */
  predicate HasSeparator(name: string) {
    '/' in name || '\\' in name
  }

  /** The line trimmed and split on single spaces: the command is the first token, the arguments the rest. */
  function Tokens(line: string): (r: seq<string>)
    ensures |r| >= 1
  {
    Split(Trim(line), ' ')
  }

  /** Whether the directory has an own child under `name`. */
  function HasOwnChild(dir: Option<FsNode>, name: string): bool {
    dir.Some? && dir.value.Directory? && Find(dir.value.children, name).Some?
  }

  /**
   * The names every plain JavaScript object inherits from `Object.prototype`;
   * `children[name]` is truthy for each of them even when no such child exists.
   */
  const InheritedNames: set<string> := {
    "constructor", "hasOwnProperty", "isPrototypeOf", "propertyIsEnumerable",
    "toLocaleString", "toString", "valueOf", "__proto__",
    "__defineGetter__", "__defineSetter__", "__lookupGetter__", "__lookupSetter__"
  }

  /** The existence test as JavaScript evaluates it on a plain object, inherited properties included. */
  function HasChildAsWritten(dir: Option<FsNode>, name: string): bool {
    dir.Some? && dir.value.Directory? && (name in InheritedNames || Find(dir.value.children, name).Some?)
  }

  /** The child names `Object.values(children)` yields, in order. */
  function Names(children: seq<Entry>): (r: seq<string>)
    ensures |r| == |children|
    ensures forall i :: 0 <= i < |r| ==> r[i] == children[i].node.name
  {
    seq(|children|, i requires 0 <= i < |children| => children[i].node.name)
  }

  // ---------------------------------------------------------------------------
  // What the terminal prints

  /** The message of each fault, as the terminal prints it. */
  function FaultText(f: Fault): string {
    match f
    case NotADirectory(path) => "ls: cannot access '" + path + "': Not a directory"
    case NotAFile(operand) => "cat: " + Show(operand) + ": No such file or not a file"
    case NoSuchDirectory(operand) => "cd: no such file or directory: " + operand
    case MkdirMissingOperand => "mkdir: missing operand"
    case InvalidDirectoryName(name) => "mkdir: invalid directory name: " + name
    case FileExists(name) => "mkdir: cannot create directory ‘" + name + "’: File exists"
    case TouchMissingOperand => "touch: missing file operand"
    case InvalidFileName(name) => "touch: invalid file name: " + name
    case AiFailure(message) => "AI Error: " + message
    case CommandNotFound(word) => "command not found: " + word
  }

  /** The file name each script command expects, in the current directory. */
  function ScriptName(script: Script): string {
    match script
    case Php => "webconsole.php"
    case Python => "script.py"
  }

  /** What `php` and `python` print when the script is found, and when it is not. */
  function ScriptText(script: Script, found: bool): string {
    match script
    case Php =>
      if found then "Simulated PHP execution: Webconsole active. Host directory structure bridged."
      else "php: script not found."
    case Python =>
      if found then "Simulated Python execution: script.py finished successfully."
      else "python: script not found."
  }

  /** What `cat` shows for a file: its content, or `(empty file)` when that is empty. */
  function FileShown(content: string): string {
    if content == "" then "(empty file)" else content
  }

  // ---------------------------------------------------------------------------
  // The commands

  function Ls(c: Container): Option<Output> {
    match Lookup(c.currentPath, c.filesystem)
    case Some(Directory(_, children)) => if |children| == 0 then None else Some(Listing(Names(children)))
    case _ => Some(Failure(NotADirectory(c.currentPath)))
  }

  function Cat(c: Container, arg: Option<string>): Output {
    match Lookup(Resolve(c.currentPath, OrElse(arg, "")), c.filesystem)
    case Some(File(_, content)) => FileText(content)
    case _ => Failure(NotAFile(arg))
  }

  function Cd(c: Container, arg: Option<string>): Outcome {
    var newPath := Resolve(c.currentPath, OrElse(arg, "/"));
    if IsDirectory(Lookup(newPath, c.filesystem)) then Done(c.(currentPath := newPath), None)
    else Done(c, Some(Failure(NoSuchDirectory(OrElse(arg, "")))))
  }

  /**
   * `mkdir`, given whether the existence test finds a child
   * (only consulted once the name has passed the other checks).
   */
  function MakeDirectory(c: Container, arg: Option<string>, childExists: bool): Outcome {
    if OrElse(arg, "") == "" then Done(c, Some(Failure(MkdirMissingOperand)))
    else
      var name := arg.value;
      if HasSeparator(name) then Done(c, Some(Failure(InvalidDirectoryName(name))))
      else if childExists then Done(c, Some(Failure(FileExists(name))))
      else Done(c.(filesystem := ModifyNodeChildren(c.filesystem, c.currentPath, AddEntry(name, Directory(name, [])))), None)
  }

  /** `touch`, given whether the existence test finds a child. */
  function CreateFile(c: Container, arg: Option<string>, childExists: bool): Outcome {
    if OrElse(arg, "") == "" then Done(c, Some(Failure(TouchMissingOperand)))
    else
      var name := arg.value;
      if HasSeparator(name) then Done(c, Some(Failure(InvalidFileName(name))))
      else if childExists then Done(c, None)
      else Done(c.(filesystem := ModifyNodeChildren(c.filesystem, c.currentPath, AddEntry(name, File(name, "")))), None)
  }

  /** `mkdir` with `children[name]` read as an own-property test. */
  function Mkdir(c: Container, arg: Option<string>): Outcome {
    MakeDirectory(c, arg, HasOwnChild(Lookup(c.currentPath, c.filesystem), OrElse(arg, "")))
  }

  /** `touch` with `children[name]` read as an own-property test. */
  function Touch(c: Container, arg: Option<string>): Outcome {
    CreateFile(c, arg, HasOwnChild(Lookup(c.currentPath, c.filesystem), OrElse(arg, "")))
  }

  function Ai(c: Container, args: seq<string>, ask: Assistant): Output {
    match ask(Join(args, " "), c.filesystem, c.currentPath)
    case Answer(text) => AiText(text)
    case Rejected(message) => Failure(AiFailure(message))
  }

  /** `php` and `python`: the script's own name as the operand, and any node of that name under the current path. */
  function RunScript(c: Container, args: seq<string>, script: Script): Output {
    var name := ScriptName(script);
    ScriptRun(script, Arg(args) == Some(name) && Lookup(Resolve(c.currentPath, name), c.filesystem).Some?)
  }

  const KnownCommands: set<string> := {"", "help", "clear", "ls", "pwd", "cat", "cd", "mkdir", "touch", "ai", "php", "python"}

  /** The cases of the command `switch`; `NotFound` is its `default`. */
  datatype Command =
    | NoCommand | HelpCommand | ClearCommand | LsCommand | PwdCommand | CatCommand | CdCommand
    | MkdirCommand | TouchCommand | AiCommand | PhpCommand | PythonCommand
    | NotFound(word: string)

  /** The case a command word selects: each known word its own, every other word the default. */
  function Parse(word: string): (r: Command)
    ensures r == NotFound(word) <==> word !in KnownCommands
    ensures r.NotFound? ==> r.word == word
  {
    if word == "" then NoCommand
    else if word == "help" then HelpCommand
    else if word == "clear" then ClearCommand
    else if word == "ls" then LsCommand
    else if word == "pwd" then PwdCommand
    else if word == "cat" then CatCommand
    else if word == "cd" then CdCommand
    else if word == "mkdir" then MkdirCommand
    else if word == "touch" then TouchCommand
    else if word == "ai" then AiCommand
    else if word == "php" then PhpCommand
    else if word == "python" then PythonCommand
    else NotFound(word)
  }

  /** One command's effect on the container, and what it prints. */
  function Step(c: Container, command: Command, args: seq<string>, ask: Assistant): Outcome {
    match command
    case NoCommand => Done(c, None)
    case HelpCommand => Done(c, Some(HelpText))
    case ClearCommand => Cleared
    case LsCommand => Done(c, Ls(c))
    case PwdCommand => Done(c, Some(WorkingDirectory(c.currentPath)))
    case CatCommand => Done(c, Some(Cat(c, Arg(args))))
    case CdCommand => Cd(c, Arg(args))
    case MkdirCommand => Mkdir(c, Arg(args))
    case TouchCommand => Touch(c, Arg(args))
    case AiCommand => Done(c, Some(Ai(c, args, ask)))
    case PhpCommand => Done(c, Some(RunScript(c, args, Php)))
    case PythonCommand => Done(c, Some(RunScript(c, args, Python)))
    case NotFound(word) => Done(c, Some(Failure(CommandNotFound(word))))
  }

  /** One command line's effect: its first token selects the command, the rest are its arguments. */
  function Dispatch(c: Container, line: string, ask: Assistant): Outcome {
    var tokens := Tokens(line);
    Step(c, Parse(tokens[0]), tokens[1..], ask)
  }

  /** How an outcome lands: its output is appended to the transcript, `clear` empties it. */
  function Record(c: Container, history: seq<Line>, line: string, outcome: Outcome): (Container, seq<Line>) {
    match outcome
    case Cleared => (c, [])
    case Done(next, None) => (next, history)
    case Done(next, Some(output)) => (next, history + [Line(line, output)])
  }

  /** A line's effect on the container and the transcript. */
  function Execute(c: Container, history: seq<Line>, line: string, ask: Assistant): (Container, seq<Line>) {
    Record(c, history, line, Dispatch(c, line, ask))
  }

  /**
   * The state the shell keeps: a normal-form current path that names a
   * directory of a valid root.
   */
  predicate Valid(c: Container) {
    ValidRoot(c.filesystem) && Normalized(c.currentPath) && IsDirectory(Lookup(c.currentPath, c.filesystem))
  }

  // ---------------------------------------------------------------------------
  // The terminal component

  /** `ls`: reads the current directory by walking the tree. */
  method ListCurrent(c: Container) returns (output: Option<Output>)
    ensures output == Ls(c)
  {
    var node := GetNodeByPath(c.currentPath, c.filesystem);
    if node.Some? && node.value.Directory? {
      if |node.value.children| == 0 {
        output := None;
      } else {
        output := Some(Listing(Names(node.value.children)));
      }
    } else {
      output := Some(Failure(NotADirectory(c.currentPath)));
    }
  }

  /** `cat`: resolves the argument and prints the file found there. */
  method ShowFile(c: Container, arg: Option<string>) returns (output: Output)
    ensures output == Cat(c, arg)
  {
    var catPath := ResolvePath(c.currentPath, OrElse(arg, ""));
    var fileNode := GetNodeByPath(catPath, c.filesystem);
    if fileNode.Some? && fileNode.value.File? {
      output := FileText(fileNode.value.content);
    } else {
      output := Failure(NotAFile(arg));
    }
  }

  /** `cd`: resolves the argument and moves there when it names a directory. */
  method ChangeDirectory(c: Container, arg: Option<string>) returns (r: Outcome)
    ensures r == Cd(c, arg)
  {
    var newPath := ResolvePath(c.currentPath, OrElse(arg, "/"));
    var targetNode := GetNodeByPath(newPath, c.filesystem);
    if targetNode.Some? && targetNode.value.Directory? {
      r := Done(c.(currentPath := newPath), None);
    } else {
      r := Done(c, Some(Failure(NoSuchDirectory(OrElse(arg, "")))));
    }
  }

  /** `mkdir`: validates the name, then adds an empty directory under the current path. */
  method CreateDirectory(c: Container, arg: Option<string>) returns (r: Outcome)
    ensures r == Mkdir(c, arg)
  {
    if OrElse(arg, "") == "" {
      r := Done(c, Some(Failure(MkdirMissingOperand)));
    } else if HasSeparator(arg.value) {
      r := Done(c, Some(Failure(InvalidDirectoryName(arg.value))));
    } else {
      var name := arg.value;
      var currentDir := GetNodeByPath(c.currentPath, c.filesystem);
      if HasOwnChild(currentDir, name) {
        r := Done(c, Some(Failure(FileExists(name))));
      } else {
        r := Done(c.(filesystem := ModifyNodeChildren(c.filesystem, c.currentPath, AddEntry(name, Directory(name, [])))), None);
      }
    }
  }

  /** `touch`: validates the name, then adds an empty file unless the name is taken. */
  method CreateEmptyFile(c: Container, arg: Option<string>) returns (r: Outcome)
    ensures r == Touch(c, arg)
  {
    if OrElse(arg, "") == "" {
      r := Done(c, Some(Failure(TouchMissingOperand)));
    } else if HasSeparator(arg.value) {
      r := Done(c, Some(Failure(InvalidFileName(arg.value))));
    } else {
      var name := arg.value;
      var parentDir := GetNodeByPath(c.currentPath, c.filesystem);
      if HasOwnChild(parentDir, name) {
        r := Done(c, None);
      } else {
        r := Done(c.(filesystem := ModifyNodeChildren(c.filesystem, c.currentPath, AddEntry(name, File(name, "")))), None);
      }
    }
  }

  /** `php` and `python`: looks the script up beside the current path. */
  method LaunchScript(c: Container, args: seq<string>, script: Script) returns (output: Output)
    ensures output == RunScript(c, args, script)
  {
    var name := ScriptName(script);
    var scriptPath := ResolvePath(c.currentPath, name);
    var found := GetNodeByPath(scriptPath, c.filesystem);
    output := ScriptRun(script, Arg(args) == Some(name) && found.Some?);
  }

  /** The command `switch`: each case delegates to the command's own method. */
  method RunStep(c: Container, command: Command, args: seq<string>, ask: Assistant) returns (r: Outcome)
    ensures r == Step(c, command, args, ask)
  {
  match command
    case NoCommand =>
      r := Done(c, None);
    case HelpCommand =>
      r := Done(c, Some(HelpText));
    case ClearCommand =>
      r := Cleared;
    case LsCommand =>
      var output := ListCurrent(c);
      r := Done(c, output);
    case PwdCommand =>
      r := Done(c, Some(WorkingDirectory(c.currentPath)));
    case CatCommand =>
      var output := ShowFile(c, Arg(args));
      r := Done(c, Some(output));
    case CdCommand =>
      r := ChangeDirectory(c, Arg(args));
    case MkdirCommand =>
      r := CreateDirectory(c, Arg(args));
    case TouchCommand =>
      r := CreateEmptyFile(c, Arg(args));
    case AiCommand =>
      var output := Ai(c, args, ask);
      r := Done(c, Some(output));
    case PhpCommand =>
      var output := LaunchScript(c, args, Php);
      r := Done(c, Some(output));
    case PythonCommand =>
      var output := LaunchScript(c, args, Python);
      r := Done(c, Some(output));
    case NotFound(word) =>
      r := Done(c, Some(Failure(CommandNotFound(word))));
  }

  /** The terminal: the container it shows and its transcript. */
  class Terminal {
    var container: Container
    var history: seq<Line>

    constructor (container: Container)
      ensures this.container == container && history == []
    {
      this.container := container;
      history := [];
    }

    /** `executeCommand`: runs one line, then records its output or clears the transcript. */
    method ExecuteCommand(commandStr: string, ask: Assistant)
      modifies this
      ensures (container, history) == Execute(old(container), old(history), commandStr, ask)
    {
      var parts := Split(Trim(commandStr), ' ');
      var command, args := parts[0], parts[1..];
      var c := container;
      var r := RunStep(c, Parse(command), args, ask);
      assert r == Dispatch(c, commandStr, ask);
      match r
      case Cleared =>
        history := [];
      case Done(next, output) =>
        container := next;
        if output.Some? {
          history := history + [Line(commandStr, output.value)];
        }
    }
  }
}
