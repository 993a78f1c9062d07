/**
 * What the terminal promises: which commands touch which part of the
 * container, that the shell keeps its current path a directory of a valid
 * tree, each command's success and error cases, and the round trips of
 * `mkdir`, `cd`, `pwd`, `touch` and `cat`.
 */
module ShellProperties {
  import opened Text
  import opened Types
  import opened Vfs
  import opened Shell

  // ---------------------------------------------------------------------------
  // Tokenising

  /** The command token is empty exactly when the line is blank. */
  lemma CommandEmptyIff(line: string)
    ensures Tokens(line)[0] == "" <==> Trim(line) == ""
  {
    var t := Trim(line);
    if t != "" {
      TrimEndPrefix(TrimStart(line));
      assert t[0] == TrimStart(line)[0];
      assert t[0] != ' ';
    }
  }

  /** A blank line prints nothing and changes nothing. */
  lemma BlankLineIsSilent(c: Container, history: seq<Line>, line: string, ask: Assistant)
    requires Trim(line) == ""
    ensures Execute(c, history, line, ask) == (c, history)
  {
    CommandEmptyIff(line);
  }

  // ---------------------------------------------------------------------------
  // Frame and invariant

  /** A line whose tokens are `command` and `args` runs that command on those arguments. */
  lemma DispatchTokens(c: Container, line: string, ask: Assistant, command: string, args: seq<string>)
    requires Tokens(line) == [command] + args
    ensures Dispatch(c, line, ask) == Step(c, Parse(command), args, ask)
  {
    assert Tokens(line)[1..] == args;
  }

  /**
   * Only `clear` clears; every other command changes at most the filesystem
   * and the current path, only `cd` moves the current path, and only `mkdir`
   * and `touch` change the filesystem.
   */
  lemma StepFrame(c: Container, command: Command, args: seq<string>, ask: Assistant)
    ensures Step(c, command, args, ask).Cleared? <==> command == ClearCommand
    ensures Step(c, command, args, ask).Done? ==>
      var next := Step(c, command, args, ask).container;
      && next == c.(filesystem := next.filesystem, currentPath := next.currentPath)
      && (next.currentPath != c.currentPath ==> command == CdCommand)
      && (next.filesystem != c.filesystem ==> command == MkdirCommand || command == TouchCommand)
  {
    match command
    case ClearCommand =>
    case CdCommand =>
    case MkdirCommand =>
    case TouchCommand =>
    case _ =>
  }

  /** The command words that select `clear`, `cd`, `mkdir`, `touch`, `cat`, `pwd` and `ls`. */
  lemma ParseWords(word: string)
    ensures Parse(word) == ClearCommand <==> word == "clear"
    ensures Parse(word) == CdCommand <==> word == "cd"
    ensures Parse(word) == MkdirCommand <==> word == "mkdir"
    ensures Parse(word) == TouchCommand <==> word == "touch"
    ensures Parse(word) == CatCommand <==> word == "cat"
    ensures Parse(word) == PwdCommand <==> word == "pwd"
    ensures Parse(word) == LsCommand <==> word == "ls"
  {
  }

  /** The frame, for a command line: the command word decides what may change. */
  lemma DispatchFrame(c: Container, line: string, ask: Assistant)
    ensures Dispatch(c, line, ask).Cleared? <==> Tokens(line)[0] == "clear"
    ensures Dispatch(c, line, ask).Done? ==>
      var next := Dispatch(c, line, ask).container;
      && next == c.(filesystem := next.filesystem, currentPath := next.currentPath)
      && (next.currentPath != c.currentPath ==> Tokens(line)[0] == "cd")
      && (next.filesystem != c.filesystem ==> Tokens(line)[0] == "mkdir" || Tokens(line)[0] == "touch")
  {
    var tokens := Tokens(line);
    ParseWords(tokens[0]);
    StepFrame(c, Parse(tokens[0]), tokens[1..], ask);
  }

  /** `clear` empties the transcript and leaves the container alone. */
  lemma ClearEmptiesTranscript(c: Container, history: seq<Line>, line: string, ask: Assistant)
    requires Tokens(line)[0] == "clear"
    ensures Execute(c, history, line, ask) == (c, [])
  {
  }

  /** Every other line keeps the transcript and appends at most one entry, for that line. */
  lemma TranscriptGrows(c: Container, history: seq<Line>, line: string, ask: Assistant)
    requires Tokens(line)[0] != "clear"
    ensures var h := Execute(c, history, line, ask).1;
      h == history || (|h| == |history| + 1 && h == history + [Line(line, h[|history|].output)])
  {
    var tokens := Tokens(line);
    ParseWords(tokens[0]);
    StepFrame(c, Parse(tokens[0]), tokens[1..], ask);
  }

  /** A command word the shell does not know is reported and changes nothing. */
  lemma UnknownCommand(c: Container, line: string, ask: Assistant)
    requires Tokens(line)[0] !in KnownCommands
    ensures Dispatch(c, line, ask) == Done(c, Some(Failure(CommandNotFound(Tokens(line)[0]))))
  {
  }

  /** An empty directory or file named `name` is a well-formed child under that name. */
  lemma NewChildValid(c: Container, node: FsNode)
    requires Valid(c) && ValidName(node.name)
    requires node == Directory(node.name, []) || node == File(node.name, "")
    ensures var fs := ModifyNodeChildren(c.filesystem, c.currentPath, AddEntry(node.name, node));
      Valid(c.(filesystem := fs))
  {
    var p := Segments(c.currentPath);
    AddChildValid(c.filesystem, p, node);
    ModifyTarget(c.filesystem, p, AddEntry(node.name, node));
  }

  /** Every command keeps the tree valid and the current path a normal-form directory path. */
  lemma StepPreservesValid(c: Container, command: Command, args: seq<string>, ask: Assistant)
    requires Valid(c) && Step(c, command, args, ask).Done?
    ensures Valid(Step(c, command, args, ask).container)
  {
    match command
    case CdCommand => CdOutcome(c, Arg(args));
    case MkdirCommand => MkdirOutcome(c, Arg(args));
    case TouchCommand => TouchOutcome(c, Arg(args));
    case _ =>
  }

  /** The same, for a line with its transcript update. */
  lemma ExecutePreservesValid(c: Container, history: seq<Line>, line: string, ask: Assistant)
    requires Valid(c)
    ensures Valid(Execute(c, history, line, ask).0)
  {
    var tokens := Tokens(line);
    if Dispatch(c, line, ask).Done? {
      StepPreservesValid(c, Parse(tokens[0]), tokens[1..], ask);
    }
  }

  // ---------------------------------------------------------------------------
  // The commands, one at a time

  /** Under a well-formed tree, the names `ls` prints are the keys of the current directory. */
  lemma LsListsKeys(c: Container)
    requires Valid(c)
    ensures var d := Lookup(c.currentPath, c.filesystem).value;
      Ls(c) == if |d.children| == 0 then None else Some(Listing(Keys(d.children)))
  {
    var d := Lookup(c.currentPath, c.filesystem).value;
    NodeAtWellFormed(c.filesystem, Segments(c.currentPath));
    assert forall i :: 0 <= i < |d.children| ==> EntryWellFormed(d.children[i]);
    assert Names(d.children) == Keys(d.children);
  }

  /** `cat` prints a file's content exactly when the path names a file, and otherwise names its operand in the error. */
  lemma CatOutcome(c: Container, arg: Option<string>)
    ensures var target := Lookup(Resolve(c.currentPath, OrElse(arg, "")), c.filesystem);
      && (Cat(c, arg).FileText? <==> target.Some? && target.value.File?)
      && (Cat(c, arg).FileText? ==> Cat(c, arg).content == target.value.content)
      && (!Cat(c, arg).FileText? ==> Cat(c, arg) == Failure(NotAFile(arg)))
  {
  }

  /** `cat` without an operand looks at the current directory, which is no file. */
  lemma CatWithoutOperand(c: Container)
    requires Valid(c)
    ensures Cat(c, None) == Failure(NotAFile(None))
  {
    ResolveEmpty(c.currentPath);
  }

  /** `cd` moves exactly when its resolved target is a directory, and then to that normal-form path. */
  lemma CdOutcome(c: Container, arg: Option<string>)
    requires Valid(c)
    ensures var target := Resolve(c.currentPath, OrElse(arg, "/"));
      && Normalized(target)
      && (IsDirectory(Lookup(target, c.filesystem)) ==> Cd(c, arg) == Done(c.(currentPath := target), None))
      && (!IsDirectory(Lookup(target, c.filesystem)) ==>
            Cd(c, arg) == Done(c, Some(Failure(NoSuchDirectory(OrElse(arg, ""))))))
      && Valid(Cd(c, arg).container)
  {
    ResolveNormalized(c.currentPath, OrElse(arg, "/"));
  }

  /** `cd` without an operand goes to the root, and `cd ..` at the root stays there. */
  lemma CdHome(c: Container)
    requires Valid(c)
    ensures Cd(c, None) == Done(c.(currentPath := "/"), None)
    ensures c.currentPath == "/" ==> Cd(c, Some("..")) == Done(c, None)
  {
    RootNormalized();
    LookupRoot(c.filesystem);
    assert Resolve(c.currentPath, "/") == "/" by {
      assert StartsWith("/", "/");
      assert Walk([], []) == [];
    }
    ResolveParent("/");
  }

  /**
   * `mkdir` succeeds silently exactly for a non-empty name without a path
   * separator that the current directory does not hold yet; then that
   * directory gains one entry, an empty directory under that name, and every
   * path off the current one is unchanged. Otherwise the container is left
   * as it is and the fault is, in this order of checks, the missing operand,
   * the invalid name or the existing child.
   */
  lemma MkdirOutcome(c: Container, arg: Option<string>)
    requires Valid(c)
    ensures var cwd := Lookup(c.currentPath, c.filesystem).value;
      && (Mkdir(c, arg).output.None? <==>
            arg.Some? && arg.value != "" && !HasSeparator(arg.value) && Find(cwd.children, arg.value).None?)
      && (Mkdir(c, arg).output.Some? ==> Mkdir(c, arg).container == c)
      && (OrElse(arg, "") == "" ==> Mkdir(c, arg) == Done(c, Some(Failure(MkdirMissingOperand))))
      && (arg.Some? && arg.value != "" && HasSeparator(arg.value) ==>
            Mkdir(c, arg) == Done(c, Some(Failure(InvalidDirectoryName(arg.value)))))
      && (arg.Some? && arg.value != "" && !HasSeparator(arg.value) && Find(cwd.children, arg.value).Some? ==>
            Mkdir(c, arg) == Done(c, Some(Failure(FileExists(arg.value)))))
      && (Mkdir(c, arg).output.None? ==>
            var fs := Mkdir(c, arg).container.filesystem;
            && Mkdir(c, arg).container == c.(filesystem := fs)
            && Lookup(c.currentPath, fs)
               == Some(Directory(cwd.name, cwd.children + [Entry(arg.value, Directory(arg.value, []))]))
            && forall q :: !IsPrefix(Segments(c.currentPath), q) && !IsPrefix(q, Segments(c.currentPath))
                 ==> NodeAt(fs, q) == NodeAt(c.filesystem, q))
      && Valid(Mkdir(c, arg).container)
  {
    if Mkdir(c, arg).output.None? {
      NewChildValid(c, Directory(arg.value, []));
      var p := Segments(c.currentPath);
      var f := AddEntry(arg.value, Directory(arg.value, []));
      ModifyTarget(c.filesystem, p, f);
      forall q | !IsPrefix(p, q) && !IsPrefix(q, p)
        ensures NodeAt(ModifyAt(c.filesystem, p, f), q) == NodeAt(c.filesystem, q)
      {
        ModifyElsewhere(c.filesystem, p, q, f);
      }
    }
  }

  /**
   * `touch` reports only a missing or separator-holding name. A name the
   * current directory already holds leaves everything as it was (an existing
   * file keeps its content); a new one gains an empty file, and every path
   * off the current one is unchanged.
   */
  lemma TouchOutcome(c: Container, arg: Option<string>)
    requires Valid(c)
    ensures var cwd := Lookup(c.currentPath, c.filesystem).value;
      && (Touch(c, arg).output.Some? <==> OrElse(arg, "") == "" || HasSeparator(arg.value))
      && (Touch(c, arg).output.Some? ==> Touch(c, arg).container == c)
      && (OrElse(arg, "") == "" ==> Touch(c, arg) == Done(c, Some(Failure(TouchMissingOperand))))
      && (arg.Some? && arg.value != "" && HasSeparator(arg.value) ==>
            Touch(c, arg) == Done(c, Some(Failure(InvalidFileName(arg.value)))))
      && (Touch(c, arg).output.None? && Find(cwd.children, arg.value).Some? ==> Touch(c, arg) == Done(c, None))
      && (Touch(c, arg).output.None? && Find(cwd.children, arg.value).None? ==>
            var fs := Touch(c, arg).container.filesystem;
            && Touch(c, arg).container == c.(filesystem := fs)
            && Lookup(c.currentPath, fs)
               == Some(Directory(cwd.name, cwd.children + [Entry(arg.value, File(arg.value, ""))]))
            && forall q :: !IsPrefix(Segments(c.currentPath), q) && !IsPrefix(q, Segments(c.currentPath))
                 ==> NodeAt(fs, q) == NodeAt(c.filesystem, q))
      && Valid(Touch(c, arg).container)
  {
    if Touch(c, arg).output.None? && Find(Lookup(c.currentPath, c.filesystem).value.children, arg.value).None? {
      NewChildValid(c, File(arg.value, ""));
      var p := Segments(c.currentPath);
      var f := AddEntry(arg.value, File(arg.value, ""));
      ModifyTarget(c.filesystem, p, f);
      forall q | !IsPrefix(p, q) && !IsPrefix(q, p)
        ensures NodeAt(ModifyAt(c.filesystem, p, f), q) == NodeAt(c.filesystem, q)
      {
        ModifyElsewhere(c.filesystem, p, q, f);
      }
    }
  }

  /** `php` and `python` accept their one script name when any node of that name sits in the current directory. */
  lemma ScriptOutcome(c: Container, args: seq<string>, script: Script)
    requires Normalized(c.currentPath)
    ensures var name := ScriptName(script);
      RunScript(c, args, script).found <==>
        Arg(args) == Some(name) && NodeAt(c.filesystem, Segments(c.currentPath) + [name]).Some?
  {
    var name := ScriptName(script);
    ScriptNamePlain(script);
    ResolveChild(c.currentPath, name);
  }

  /** Both script names are single plain segments. */
  lemma ScriptNamePlain(script: Script)
    ensures Plain(ScriptName(script))
  {
    match script
    case Php =>
      assert "webconsole.php"[0] == 'w';
    case Python =>
      assert "script.py"[0] == 's';
  }

  /** The assistant is asked with everything after `ai `, inner spacing kept, and its reply or error is printed. */
  lemma AiPrompt(c: Container, rest: string, ask: Assistant)
    requires rest != "" && !IsBlank(rest[|rest| - 1])
    ensures Dispatch(c, "ai " + rest, ask)
         == Done(c, Some(match ask(rest, c.filesystem, c.currentPath)
                         case Answer(text) => AiText(text)
                         case Rejected(message) => Failure(AiFailure(message))))
  {
    TokeniseRest("ai", rest);
    assert "ai " + rest == "ai" + " " + rest;
    DispatchTokens(c, "ai " + rest, ask, "ai", Split(rest, ' '));
    JoinSplit(rest, ' ');
  }

  // ---------------------------------------------------------------------------
  // Quirks of the source

  /**
   * Tokens are split on single spaces: two spaces after `mkdir` make the
   * first argument empty, so the line reports a missing operand and changes
   * nothing.
   */
  lemma DoubleSpaceMissingOperand(c: Container, name: string, ask: Assistant)
    requires name != "" && !IsBlank(name[|name| - 1])
    ensures Dispatch(c, "mkdir  " + name, ask) == Done(c, Some(Failure(MkdirMissingOperand)))
  {
    var rest := " " + name;
    TokeniseRest("mkdir", rest);
    assert "mkdir  " + name == "mkdir" + " " + rest;
    assert rest == "" + [' '] + name;
    SplitConcat("", name, ' ');
    SplitWithoutSeparator("", ' ');
    DispatchTokens(c, "mkdir  " + name, ask, "mkdir", [""] + Split(name, ' '));
  }

  /** `mkdir ..` is not refused: only separators are, so the directory gains a child keyed `..`. */
  lemma MkdirDotDot(c: Container)
    requires Valid(c) && !HasOwnChild(Lookup(c.currentPath, c.filesystem), "..")
    ensures Mkdir(c, Some("..")).output.None?
    ensures IsDirectory(Lookup(c.currentPath, Mkdir(c, Some("..")).container.filesystem))
    ensures Find(Lookup(c.currentPath, Mkdir(c, Some("..")).container.filesystem).value.children, "..")
         == Some(Directory("..", []))
  {
    MkdirOutcome(c, Some(".."));
    var cwd := Lookup(c.currentPath, c.filesystem).value;
    FindAppend(cwd.children, [Entry("..", Directory("..", []))], "..");
  }

  // ---------------------------------------------------------------------------
  // Round trips

  /** The path `cd name` reaches from a normal-form path holds the new child. */
  lemma ChildLookup(c: Container, fs: FsNode, name: string, node: FsNode)
    requires Valid(c) && Plain(name)
    requires fs == ModifyNodeChildren(c.filesystem, c.currentPath, AddEntry(name, node))
    ensures Resolve(c.currentPath, name) == ChildPath(c.currentPath, name)
    ensures Lookup(ChildPath(c.currentPath, name), fs) == Some(node)
  {
    var p := Segments(c.currentPath);
    var d := Lookup(c.currentPath, c.filesystem).value;
    ResolveChild(c.currentPath, name);
    ModifyBelow(c.filesystem, p, [name], AddEntry(name, node));
    FindPut(d.children, name, node, name);
  }

  // The lemmas below take a command line by its tokens; `Text.Tokenise`
  // shows that `"mkdir " + name` and its like tokenise that way.

  /** `mkdir name` with a fresh plain name: silent, and the new empty directory is in place. */
  lemma RunMkdir(c: Container, history: seq<Line>, line: string, name: string, ask: Assistant)
    requires Valid(c) && Plain(name) && '\\' !in name
    requires !HasOwnChild(Lookup(c.currentPath, c.filesystem), name)
    requires Tokens(line) == ["mkdir", name]
    ensures Execute(c, history, line, ask)
         == (c.(filesystem := ModifyNodeChildren(c.filesystem, c.currentPath, AddEntry(name, Directory(name, [])))), history)
  {
    DispatchTokens(c, line, ask, "mkdir", [name]);
    ParseWords("mkdir");
    assert Dispatch(c, line, ask) == Mkdir(c, Some(name));
    assert OrElse(Some(name), "") == name && !HasSeparator(name);
  }

  /** `cd` to a directory child of a normal-form path moves to the child path. */
  lemma CdChild(c: Container, name: string)
    requires Normalized(c.currentPath) && Plain(name)
    requires IsDirectory(Lookup(ChildPath(c.currentPath, name), c.filesystem))
    ensures Cd(c, Some(name)) == Done(c.(currentPath := ChildPath(c.currentPath, name)), None)
  {
    ResolveChild(c.currentPath, name);
  }

  /** `cd name` into a directory child of a normal-form path: silent, and the path is the child path. */
  lemma RunCd(c: Container, history: seq<Line>, line: string, name: string, ask: Assistant)
    requires Normalized(c.currentPath) && Plain(name)
    requires IsDirectory(Lookup(ChildPath(c.currentPath, name), c.filesystem))
    requires Tokens(line) == ["cd", name]
    ensures Execute(c, history, line, ask) == (c.(currentPath := ChildPath(c.currentPath, name)), history)
  {
    DispatchTokens(c, line, ask, "cd", [name]);
    ParseWords("cd");
    CdChild(c, name);
  }

  /** `pwd` prints the current path. */
  lemma RunPwd(c: Container, history: seq<Line>, line: string, ask: Assistant)
    requires Tokens(line) == ["pwd"]
    ensures Execute(c, history, line, ask) == (c, history + [Line(line, WorkingDirectory(c.currentPath))])
  {
    DispatchTokens(c, line, ask, "pwd", []);
    ParseWords("pwd");
    assert Dispatch(c, line, ask) == Done(c, Some(WorkingDirectory(c.currentPath)));
  }

  /** `cd ..` from a child of a valid current directory: silent, and back in that directory. */
  lemma RunCdParent(c: Container, history: seq<Line>, line: string, name: string, ask: Assistant)
    requires Valid(c) && Plain(name)
    requires Tokens(line) == ["cd", ".."]
    ensures Execute(c.(currentPath := ChildPath(c.currentPath, name)), history, line, ask) == (c, history)
  {
    var p := c.currentPath;
    var child := ChildPath(p, name);
    ResolveChild(p, name);
    ResolveNormalized(p, name);
    ResolveParent(child);
    assert (Segments(p) + [name])[..|Segments(p)|] == Segments(p);
    assert Resolve(child, "..") == p;
    DispatchTokens(c.(currentPath := child), line, ask, "cd", [".."]);
    ParseWords("cd");
  }

  /** `ls` in a current directory with children: their keys, in order, and nothing changes. */
  lemma RunLs(c: Container, history: seq<Line>, line: string, ask: Assistant)
    requires Valid(c) && |Lookup(c.currentPath, c.filesystem).value.children| > 0
    requires Tokens(line) == ["ls"]
    ensures Execute(c, history, line, ask)
         == (c, history + [Line(line, Listing(Keys(Lookup(c.currentPath, c.filesystem).value.children)))])
  {
    DispatchTokens(c, line, ask, "ls", []);
    ParseWords("ls");
    LsListsKeys(c);
  }

  /** `touch name` with a fresh plain name: silent, and the new empty file is in place. */
  lemma RunTouch(c: Container, history: seq<Line>, line: string, name: string, ask: Assistant)
    requires Valid(c) && Plain(name) && '\\' !in name
    requires !HasOwnChild(Lookup(c.currentPath, c.filesystem), name)
    requires Tokens(line) == ["touch", name]
    ensures Execute(c, history, line, ask)
         == (c.(filesystem := ModifyNodeChildren(c.filesystem, c.currentPath, AddEntry(name, File(name, "")))), history)
  {
    DispatchTokens(c, line, ask, "touch", [name]);
    ParseWords("touch");
    assert Dispatch(c, line, ask) == Touch(c, Some(name));
    assert OrElse(Some(name), "") == name && !HasSeparator(name);
  }

  /** `cat name` for a file child of a normal-form path prints its content. */
  lemma RunCat(c: Container, history: seq<Line>, line: string, name: string, content: string, ask: Assistant)
    requires Normalized(c.currentPath) && Plain(name)
    requires Lookup(ChildPath(c.currentPath, name), c.filesystem) == Some(File(name, content))
    requires Tokens(line) == ["cat", name]
    ensures Execute(c, history, line, ask)
         == (c, history + [Line(line, FileText(content))])
  {
    DispatchTokens(c, line, ask, "cat", [name]);
    ParseWords("cat");
    ResolveChild(c.currentPath, name);
  }

  /** `cat name` for a directory child of a normal-form path: the error, naming the operand. */
  lemma RunCatDirectory(c: Container, history: seq<Line>, line: string, name: string, ask: Assistant)
    requires Normalized(c.currentPath) && Plain(name)
    requires IsDirectory(Lookup(ChildPath(c.currentPath, name), c.filesystem))
    requires Tokens(line) == ["cat", name]
    ensures Execute(c, history, line, ask)
         == (c, history + [Line(line, Failure(NotAFile(Some(name))))])
  {
    DispatchTokens(c, line, ask, "cat", [name]);
    ParseWords("cat");
    ResolveChild(c.currentPath, name);
  }

  /** `mkdir` and `touch` on a name the current directory holds: an error and a no-op. */
  lemma ExistingChild(c: Container, name: string)
    requires name != "" && !HasSeparator(name)
    requires HasOwnChild(Lookup(c.currentPath, c.filesystem), name)
    ensures Mkdir(c, Some(name)) == Done(c, Some(Failure(FileExists(name))))
    ensures Touch(c, Some(name)) == Done(c, None)
  {
  }

  /** `mkdir name` for a name the current directory holds: the error, and nothing changes. */
  lemma RunMkdirExisting(c: Container, history: seq<Line>, line: string, name: string, ask: Assistant)
    requires name != "" && !HasSeparator(name)
    requires HasOwnChild(Lookup(c.currentPath, c.filesystem), name)
    requires Tokens(line) == ["mkdir", name]
    ensures Execute(c, history, line, ask)
         == (c, history + [Line(line, Failure(FileExists(name)))])
  {
    DispatchTokens(c, line, ask, "mkdir", [name]);
    ParseWords("mkdir");
    ExistingChild(c, name);
  }

  /** `touch name` for a name the current directory holds: silent, and nothing changes. */
  lemma RunTouchExisting(c: Container, history: seq<Line>, line: string, name: string, ask: Assistant)
    requires name != "" && !HasSeparator(name)
    requires HasOwnChild(Lookup(c.currentPath, c.filesystem), name)
    requires Tokens(line) == ["touch", name]
    ensures Execute(c, history, line, ask) == (c, history)
  {
    DispatchTokens(c, line, ask, "touch", [name]);
    ParseWords("touch");
    ExistingChild(c, name);
  }

  /** A file child of the current directory is what the child path looks up. */
  lemma ChildFile(c: Container, name: string, content: string)
    requires Normalized(c.currentPath) && Plain(name)
    requires IsDirectory(Lookup(c.currentPath, c.filesystem))
    requires Find(Lookup(c.currentPath, c.filesystem).value.children, name) == Some(File(name, content))
    ensures Lookup(ChildPath(c.currentPath, name), c.filesystem) == Some(File(name, content))
  {
    ResolveChild(c.currentPath, name);
    NodeAtConcat(c.filesystem, Segments(c.currentPath), [name]);
  }

  /**
   * `mkdir name`, `cd name` and `pwd` in a row: the terminal ends up in the
   * new empty directory and the only new transcript entry is its path.
   */
  lemma MkdirCdPwd(c: Container, history: seq<Line>, name: string, mkdir: string, cd: string, pwd: string, ask: Assistant)
    requires Valid(c) && Plain(name) && '\\' !in name
    requires !HasOwnChild(Lookup(c.currentPath, c.filesystem), name)
    requires Tokens(mkdir) == ["mkdir", name] && Tokens(cd) == ["cd", name] && Tokens(pwd) == ["pwd"]
    ensures var (c1, h1) := Execute(c, history, mkdir, ask);
      var (c2, h2) := Execute(c1, h1, cd, ask);
      var (c3, h3) := Execute(c2, h2, pwd, ask);
      && c3.currentPath == ChildPath(c.currentPath, name)
      && Lookup(c3.currentPath, c3.filesystem) == Some(Directory(name, []))
      && h3 == history + [Line(pwd, WorkingDirectory(ChildPath(c.currentPath, name)))]
  {
    var fs := ModifyNodeChildren(c.filesystem, c.currentPath, AddEntry(name, Directory(name, [])));
    var c1 := c.(filesystem := fs);
    RunMkdir(c, history, mkdir, name, ask);
    ChildLookup(c, fs, name, Directory(name, []));
    RunCd(c1, history, cd, name, ask);
    RunPwd(c1.(currentPath := ChildPath(c.currentPath, name)), history, pwd, ask);
  }

  /** `mkdir name` run twice: the second run reports that the directory exists and changes nothing. */
  lemma MkdirTwice(c: Container, history: seq<Line>, line: string, name: string, ask: Assistant)
    requires Valid(c) && Plain(name) && '\\' !in name
    requires !HasOwnChild(Lookup(c.currentPath, c.filesystem), name)
    requires Tokens(line) == ["mkdir", name]
    ensures var (c1, h1) := Execute(c, history, line, ask);
      Execute(c1, h1, line, ask)
      == (c1, history + [Line(line, Failure(FileExists(name)))])
  {
    var f := AddEntry(name, Directory(name, []));
    var c1 := c.(filesystem := ModifyNodeChildren(c.filesystem, c.currentPath, f));
    var d := Lookup(c.currentPath, c.filesystem).value;
    RunMkdir(c, history, line, name, ask);
    ModifyTarget(c.filesystem, Segments(c.currentPath), f);
    FindPut(d.children, name, Directory(name, []), name);
    RunMkdirExisting(c1, history, line, name, ask);
  }

  /** `mkdir name` and then `cat name`: `cat` refuses the new directory, naming it. */
  lemma MkdirThenCat(c: Container, history: seq<Line>, name: string, mkdir: string, cat: string, ask: Assistant)
    requires Valid(c) && Plain(name) && '\\' !in name
    requires !HasOwnChild(Lookup(c.currentPath, c.filesystem), name)
    requires Tokens(mkdir) == ["mkdir", name] && Tokens(cat) == ["cat", name]
    ensures var (c1, h1) := Execute(c, history, mkdir, ask);
      Execute(c1, h1, cat, ask) == (c1, history + [Line(cat, Failure(NotAFile(Some(name))))])
  {
    var fs := ModifyNodeChildren(c.filesystem, c.currentPath, AddEntry(name, Directory(name, [])));
    RunMkdir(c, history, mkdir, name, ask);
    ChildLookup(c, fs, name, Directory(name, []));
    RunCatDirectory(c.(filesystem := fs), history, cat, name, ask);
  }

  /** `touch name` and then `cat name`: the new file is shown as empty. */
  lemma TouchThenCat(c: Container, history: seq<Line>, name: string, touch: string, cat: string, ask: Assistant)
    requires Valid(c) && Plain(name) && '\\' !in name
    requires !HasOwnChild(Lookup(c.currentPath, c.filesystem), name)
    requires Tokens(touch) == ["touch", name] && Tokens(cat) == ["cat", name]
    ensures var (c1, h1) := Execute(c, history, touch, ask);
      && Lookup(ChildPath(c.currentPath, name), c1.filesystem) == Some(File(name, ""))
      && Execute(c1, h1, cat, ask).1 == history + [Line(cat, FileText(""))]
  {
    var fs := ModifyNodeChildren(c.filesystem, c.currentPath, AddEntry(name, File(name, "")));
    RunTouch(c, history, touch, name, ask);
    ChildLookup(c, fs, name, File(name, ""));
    RunCat(c.(filesystem := fs), history, cat, name, "", ask);
  }

  /** `touch` on a file that exists keeps its content: `cat` shows it unchanged. */
  lemma TouchKeepsContent(c: Container, history: seq<Line>, name: string, content: string, touch: string, cat: string, ask: Assistant)
    requires Valid(c) && Plain(name) && '\\' !in name
    requires Find(Lookup(c.currentPath, c.filesystem).value.children, name) == Some(File(name, content))
    requires Tokens(touch) == ["touch", name] && Tokens(cat) == ["cat", name]
    ensures Execute(c, history, touch, ask) == (c, history)
    ensures Execute(c, history, cat, ask).1
         == history + [Line(cat, FileText(content))]
  {
    ChildFile(c, name, content);
    RunCat(c, history, cat, name, content, ask);
    RunTouchExisting(c, history, touch, name, ask);
  }

  /** The lines of a session run one after another, each on what the one before left. */
  function Session(c: Container, history: seq<Line>, lines: seq<string>, ask: Assistant): (Container, seq<Line>)
    decreases |lines|
  {
    if |lines| == 0 then (c, history)
    else Session(Execute(c, history, lines[0], ask).0, Execute(c, history, lines[0], ask).1, lines[1..], ask)
  }

  /** Once the effect of a session's line `k` is known, the session from `k` goes on from that state. */
  lemma SessionStep(c: Container, history: seq<Line>, lines: seq<string>, k: nat, ask: Assistant,
                    next: Container, after: seq<Line>)
    requires k < |lines| && Execute(c, history, lines[k], ask) == (next, after)
    ensures Session(c, history, lines[k..], ask) == Session(next, after, lines[k + 1..], ask)
  {
    assert lines[k..][0] == lines[k] && lines[k..][1..] == lines[k + 1..];
  }

  /** A session of five lines whose every step is known ends in the state the last one leaves. */
  lemma SessionOfFive(lines: seq<string>, ask: Assistant, c0: Container, h0: seq<Line>,
                      c1: Container, h1: seq<Line>, c2: Container, h2: seq<Line>, c3: Container, h3: seq<Line>,
                      c4: Container, h4: seq<Line>, c5: Container, h5: seq<Line>)
    requires |lines| == 5
    requires Execute(c0, h0, lines[0], ask) == (c1, h1) && Execute(c1, h1, lines[1], ask) == (c2, h2)
    requires Execute(c2, h2, lines[2], ask) == (c3, h3) && Execute(c3, h3, lines[3], ask) == (c4, h4)
    requires Execute(c4, h4, lines[4], ask) == (c5, h5)
    ensures Session(c0, h0, lines, ask) == (c5, h5)
  {
    SessionStep(c0, h0, lines, 0, ask, c1, h1);
    SessionStep(c1, h1, lines, 1, ask, c2, h2);
    SessionStep(c2, h2, lines, 2, ask, c3, h3);
    SessionStep(c3, h3, lines, 3, ask, c4, h4);
    SessionStep(c4, h4, lines, 4, ask, c5, h5);
    assert lines[0..] == lines && lines[5..] == [];
  }

  /**
   * The session `mkdir dir`, `cd dir`, `touch file`, `cd ..`, `ls`: the
   * terminal is back where it started, `dir` holds exactly the empty `file`,
   * and the only transcript entry is the listing, which ends in `dir`.
   */
  lemma ProjectSession(c: Container, history: seq<Line>, dir: string, file: string,
                       mkdir: string, cd: string, touch: string, up: string, ls: string, ask: Assistant)
    requires Valid(c) && Plain(dir) && '\\' !in dir && Plain(file) && '\\' !in file
    requires !HasOwnChild(Lookup(c.currentPath, c.filesystem), dir)
    requires Tokens(mkdir) == ["mkdir", dir] && Tokens(cd) == ["cd", dir] && Tokens(touch) == ["touch", file]
    requires Tokens(up) == ["cd", ".."] && Tokens(ls) == ["ls"]
    ensures var (last, transcript) := Session(c, history, [mkdir, cd, touch, up, ls], ask);
      && last == c.(filesystem := last.filesystem)
      && Lookup(ChildPath(c.currentPath, dir), last.filesystem) == Some(Directory(dir, [Entry(file, File(file, ""))]))
      && Lookup(ChildPath(ChildPath(c.currentPath, dir), file), last.filesystem) == Some(File(file, ""))
      && transcript == history + [Line(ls, Listing(Keys(Lookup(c.currentPath, c.filesystem).value.children) + [dir]))]
  {
    var p := c.currentPath;
    var cp := ChildPath(p, dir);
    var d := Lookup(p, c.filesystem).value;
    var fs1 := ModifyNodeChildren(c.filesystem, p, AddEntry(dir, Directory(dir, [])));
    var c1 := c.(filesystem := fs1);
    var c2 := c1.(currentPath := cp);
    var fs2 := ModifyNodeChildren(fs1, cp, AddEntry(file, File(file, "")));
    var c4 := c.(filesystem := fs2);
    var out := history + [Line(ls, Listing(Keys(d.children) + [dir]))];
    var lines := [mkdir, cd, touch, up, ls];
    assert Execute(c, history, mkdir, ask) == (c1, history)
        && Execute(c1, history, cd, ask) == (c2, history)
        && Lookup(cp, fs1) == Some(Directory(dir, [])) && Valid(c2) by {
      SessionMkdirCd(c, history, dir, mkdir, cd, ask);
    }
    assert Execute(c2, history, touch, ask) == (c4.(currentPath := cp), history)
        && Lookup(ChildPath(cp, file), fs2) == Some(File(file, "")) && ValidRoot(fs2) by {
      SessionTouch(c2, history, file, touch, ask);
      assert c2.(filesystem := fs2) == c4.(currentPath := cp);
    }
    assert Valid(c4) && Lookup(cp, fs2) == Some(Directory(dir, [Entry(file, File(file, ""))]))
        && Keys(Lookup(p, fs2).value.children) == Keys(d.children) + [dir] by {
      SessionTree(c, dir, file);
      KeysAppend(d.children, [Entry(dir, Directory(dir, []))]);
      assert Keys([Entry(dir, Directory(dir, []))]) == [dir];
    }
    assert Execute(c4.(currentPath := cp), history, up, ask) == (c4, history) by {
      RunCdParent(c4, history, up, dir, ask);
    }
    assert Execute(c4, history, ls, ask) == (c4, out) by {
      RunLs(c4, history, ls, ask);
    }
    assert lines[0] == mkdir && lines[1] == cd && lines[2] == touch && lines[3] == up && lines[4] == ls;
    SessionOfFive(lines, ask, c, history, c1, history, c2, history, c4.(currentPath := cp), history, c4, history, c4, out);
    assert Session(c4, out, [], ask) == (c4, out);
  }

  /** The first two lines of `ProjectSession`: the new empty directory becomes the current one. */
  lemma SessionMkdirCd(c: Container, history: seq<Line>, dir: string, mkdir: string, cd: string, ask: Assistant)
    requires Valid(c) && Plain(dir) && '\\' !in dir
    requires !HasOwnChild(Lookup(c.currentPath, c.filesystem), dir)
    requires Tokens(mkdir) == ["mkdir", dir] && Tokens(cd) == ["cd", dir]
    ensures var fs1 := ModifyNodeChildren(c.filesystem, c.currentPath, AddEntry(dir, Directory(dir, [])));
      && Execute(c, history, mkdir, ask) == (c.(filesystem := fs1), history)
      && Execute(c.(filesystem := fs1), history, cd, ask) == (c.(filesystem := fs1, currentPath := ChildPath(c.currentPath, dir)), history)
      && Lookup(ChildPath(c.currentPath, dir), fs1) == Some(Directory(dir, []))
      && Valid(c.(filesystem := fs1, currentPath := ChildPath(c.currentPath, dir)))
  {
    var fs1 := ModifyNodeChildren(c.filesystem, c.currentPath, AddEntry(dir, Directory(dir, [])));
    var c1 := c.(filesystem := fs1);
    RunMkdir(c, history, mkdir, dir, ask);
    ChildLookup(c, fs1, dir, Directory(dir, []));
    NewChildValid(c, Directory(dir, []));
    RunCd(c1, history, cd, dir, ask);
    ExecutePreservesValid(c1, history, cd, ask);
  }

  /** The third line of `ProjectSession`: `touch` in the new, empty current directory. */
  lemma SessionTouch(c: Container, history: seq<Line>, file: string, touch: string, ask: Assistant)
    requires Valid(c) && Plain(file) && '\\' !in file
    requires Lookup(c.currentPath, c.filesystem).value.children == []
    requires Tokens(touch) == ["touch", file]
    ensures var fs2 := ModifyNodeChildren(c.filesystem, c.currentPath, AddEntry(file, File(file, "")));
      && Execute(c, history, touch, ask) == (c.(filesystem := fs2), history)
      && Lookup(ChildPath(c.currentPath, file), fs2) == Some(File(file, ""))
      && ValidRoot(fs2)
  {
    var fs2 := ModifyNodeChildren(c.filesystem, c.currentPath, AddEntry(file, File(file, "")));
    RunTouch(c, history, touch, file, ask);
    ChildLookup(c, fs2, file, File(file, ""));
    NewChildValid(c, File(file, ""));
  }

  /**
   * The tree `ProjectSession` leaves: the starting directory keeps its name
   * and gains the key `dir`, and `dir` holds exactly the empty `file`.
   */
  lemma SessionTree(c: Container, dir: string, file: string)
    requires Valid(c) && Plain(dir) && Plain(file)
    requires Find(Lookup(c.currentPath, c.filesystem).value.children, dir).None?
    ensures var p := c.currentPath;
      var d := Lookup(p, c.filesystem).value;
      var fs1 := ModifyNodeChildren(c.filesystem, p, AddEntry(dir, Directory(dir, [])));
      var fs2 := ModifyNodeChildren(fs1, ChildPath(p, dir), AddEntry(file, File(file, "")));
      && IsDirectory(Lookup(p, fs2))
      && Keys(Lookup(p, fs2).value.children) == Keys(d.children + [Entry(dir, Directory(dir, []))])
      && Lookup(ChildPath(p, dir), fs2) == Some(Directory(dir, [Entry(file, File(file, ""))]))
  {
    var p := c.currentPath;
    var s := Segments(p);
    var f1 := AddEntry(dir, Directory(dir, []));
    var fs1 := ModifyNodeChildren(c.filesystem, p, f1);
    var f2 := AddEntry(file, File(file, ""));
    ResolveChild(p, dir);
    ChildLookup(c, fs1, dir, Directory(dir, []));
    ModifyTarget(c.filesystem, s, f1);
    assert IsPrefix(s, s + [dir]);
    ModifyAncestors(fs1, s + [dir], s, f2);
    ModifyTarget(fs1, s + [dir], f2);
  }
}
