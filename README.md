# System Operator virtual filesystem and terminal, in Dafny

This project models the core of the System Operator view of an agent
orchestration front end.

Each build environment ("container") owns an in-memory filesystem, a tree
of files and directories rooted at `/`. It also has a current path, a
status, and a history of hand-over entries. The operator works on a
container through a small shell. The commands are `help`, `clear`, `ls`,
`pwd`, `cat`, `cd`, `mkdir`, `touch`, `php`, `python` and `ai`. Three
buttons run a simulated npm life cycle: install, build and start. New
containers are seeded from one of two template trees, React + Vite or
vanilla. Two add-ons can be put into the seeded tree: a Tailwind
configuration and an IndexedDB module.

The model is organised by module:

- `Types` holds the records.
- `Text` holds the JavaScript string operations the code relies on:
  `split`, `trim`, `filter` of empty pieces, `join` and `includes`.
- `Vfs` holds path resolution, lookup and the copy-on-write update of one
  directory's children.
- `Shell` holds the command dispatcher and the `Terminal` class that owns
  the transcript.
- `Lifecycle` holds the npm state machine.
- `Explorer` holds the order of the file explorer.
- `Seeding` holds the template trees and `createInitialFileSystem`.
- `Containers` holds the container list handlers.
- `Findings` holds the one discrepancy described below.

## How the model is built

A directory's `children` object becomes a sequence of `Entry(key, node)`
pairs. The sequence keeps the object's insertion order, which is the order
`Object.values` and `ls` report. Keeping the key separate from the child's
own `name` makes "every key is its child's name" an invariant that can be
proved rather than something true by construction. `Vfs.ValidRoot` states
that invariant and `Shell.Valid` extends it to a whole container. It is
proved to hold for:

- every seeded tree (`Seeding.InitialValid`);
- every new container (`Containers.NewContainerState`);
- every terminal command (`ShellProperties.ExecutePreservesValid`).

A successful rebuild, by contrast, can break it (`LifecycleProperties.RebuildOrphansCwd`). The second `npm run build` replaces `/dist` wholesale, so a current path inside a directory made under `/dist` no longer names a directory, and later `mkdir` and `touch` there create nothing. This is what the source does, and no intended behaviour is known that would differ. It is recorded as a property of the model, not claimed as a bug.

The source's loops are imperative methods, each proved equal to a function
that specifies it:

- `Vfs.ResolvePath` pushes and pops on a segment stack; it is proved equal
  to `Vfs.Resolve`.
- `Vfs.GetNodeByPath` descends one segment per iteration; it is proved
  equal to `Vfs.Lookup`.
- Each command handler of `Shell` is proved equal to the pure function
  for its command.
- `Shell.Terminal.ExecuteCommand` reassigns the terminal's container and
  transcript. It is proved to move to `Shell.Execute` of the old state.
- `Lifecycle.RunCommand` builds up the container and the history entry
  step by step. It is proved equal to `Lifecycle.Started` at the click and
  `Lifecycle.Finished` when the timer fires.
- `Seeding.CreateInitialFileSystem` assigns into the root's and `src`'s
  children. It is proved equal to `Seeding.InitialFileSystem`.

The lemmas in `ShellProperties`, `LifecycleProperties`, `Seeding` and
`Containers` then state what the source promises about those functions.

The file contents of the two templates are held in one record,
`Seeding.SeedTexts`. `Seeding.SourceTexts()` returns that record with the
exact strings of components/SystemOperatorView.tsx. Every seeding lemma is
stated for any contents, and so in particular for those.

A few behaviours of the code are easy to overlook, and the model states them
as the code has them:

- `php` and `python` run when any node, a directory included, sits at the
  resolved path of their script name; the test is only that the lookup is
  not null (components/ContainerCard.tsx:194 and 201,
  `ShellProperties.ScriptOutcome`).
- The "File exists" message of `mkdir` quotes the name with typographic
  quotes, ‘ and ’ (components/ContainerCard.tsx:149, `Shell.FaultText`).
- `trim()` is modelled with the whitespace set given in `Text.IsBlank`.
  Tokens are split on single spaces only (components/ContainerCard.tsx:67),
  so `mkdir  a` reports a missing operand
  (`ShellProperties.DoubleSpaceMissingOperand`).

`Shell.Execute`, and with it `Shell.Terminal.ExecuteCommand`, dispatches
`mkdir` and `touch` to the own-property reading of the existence test
(`Shell.Mkdir`, `Shell.Touch`); the code as written differs from it for
inherited property names, as described under "## Findings".

## Model

| member | source | states |
|---|---|---|
| Text.Split | components/ContainerCard.tsx:67 | splitting a string gives at least one piece and no piece holds the separator |
| Text.NonEmpty | components/ContainerCard.tsx:9 | the filter of empty pieces keeps exactly the non-empty pieces |
| Text.TrimStart | components/ContainerCard.tsx:67 | what remains after leading whitespace is removed is empty or starts with a non-blank character, and is no longer than the input |
| Text.TrimEnd | components/ContainerCard.tsx:67 | what remains after trailing whitespace is removed is empty or ends with a non-blank character, and is no longer than the input |
| Text.SplitWithoutSeparator | components/ContainerCard.tsx:67 | a string without the separator splits into itself alone |
| Text.SplitConcat | components/ContainerCard.tsx:67 | splitting distributes over a separator placed between two strings |
| Text.JoinSplit | components/ContainerCard.tsx:183 | joining the pieces of a split with the separator gives back the original string |
| Text.SplitJoin | components/ContainerCard.tsx:34 | splitting a join gives back the pieces, when no piece holds the separator |
| Text.NonEmptyConcat | components/ContainerCard.tsx:24-25 | filtering commutes with concatenation |
| Text.NonEmptyKeeps | components/ContainerCard.tsx:9 | a sequence of non-empty pieces passes the filter unchanged |
| Text.JoinSnoc | components/ContainerCard.tsx:34 | joining one more piece appends the separator and that piece |
| Text.ContainsAt | components/SystemOperatorView.tsx:47 | `includes` holds exactly when the substring occurs at some offset |
| Text.TrimStartSuffix | components/ContainerCard.tsx:67 | removing leading whitespace keeps a suffix of the input and drops only blank characters |
| Text.TrimEndPrefix | components/ContainerCard.tsx:67 | removing trailing whitespace keeps a prefix of the input and drops only blank characters |
| Text.TrimUnchanged | components/ContainerCard.tsx:67 | a string with non-blank ends is left as it is by `trim` |
| Text.TrimIdempotent | components/ContainerCard.tsx:67 | trimming twice is trimming once |
| Text.Tokenise | components/ContainerCard.tsx:67 | a command word, one space and an argument word tokenise into exactly those two words |
| Text.TokeniseRest | components/ContainerCard.tsx:67 | a command word, one space and a rest tokenise into the word followed by the rest's pieces |
| Text.TokeniseWord | components/ContainerCard.tsx:67 | a single word tokenises into itself |
| Vfs.Keys | components/ContainerCard.tsx:103 | the keys of a children object, one per child and in order |
| Vfs.Find | components/ContainerCard.tsx:12 | a child is found exactly when its key is among the keys |
| Vfs.FindAppend | components/ContainerCard.tsx:12 | a lookup in two runs of children looks in the second only when the first lacks the key |
| Vfs.FindAt | types.ts:85 | with distinct keys, each position's key finds that position's node |
| Vfs.Put | components/ContainerCard.tsx:151-154 | spreading in one property keeps the keys when the key exists and appends it otherwise, and a new key lands last |
| Vfs.FindPut | components/ContainerCard.tsx:151-154 | after the put the key holds the new node and every other key what it held before |
| Vfs.PutExisting | components/ContainerCard.tsx:44-45 | putting back a key's own value changes nothing |
| Vfs.ConsWellFormed | types.ts:81-86 | a well-formed entry in front of well-formed children with other keys gives well-formed children |
| Vfs.TailWellFormed | types.ts:81-86 | the tail of well-formed children is well formed and lacks the head's key |
| Vfs.PutWellFormed | components/ContainerCard.tsx:151-154 | putting a well-formed node under its own valid name keeps children well formed |
| Vfs.Segments | components/ContainerCard.tsx:9 | every segment of a path is non-empty and holds no `/` |
| Vfs.WalkStep | components/ContainerCard.tsx:27-33 | the segment stack after one more part is one more push or pop |
| Vfs.ResolvePath | components/ContainerCard.tsx:21-36 | the pushing and popping loop computes `Vfs.Resolve` |
| Vfs.Lookup | components/ContainerCard.tsx:7-19 | the lookup, with its shortcut for `/`, is the walk over the path's segments |
| Vfs.GetNodeByPath | components/ContainerCard.tsx:7-19 | the descending loop computes `Vfs.Lookup` |
| Vfs.ModifyAt | components/ContainerCard.tsx:39-48 | the update keeps the node's name and kind |
| Vfs.SegmentsOfPath | components/ContainerCard.tsx:34 | the path built from valid segments splits back into those segments |
| Vfs.RootNormalized | components/ContainerCard.tsx:8 | `/` has no segments and is in normal form |
| Vfs.WalkPlain | components/ContainerCard.tsx:27-33 | segments other than `.` and `..` are pushed unchanged |
| Vfs.WalkStaysPlain | components/ContainerCard.tsx:27-33 | pushing and popping valid segments on a plain stack leaves it plain |
| Vfs.ResolveNormalized | components/ContainerCard.tsx:21-35 | a resolved non-empty target starts with `/` and has no empty, `.` or `..` segment |
| Vfs.ResolveEmpty | components/ContainerCard.tsx:22 | an empty target returns the current path unchanged, whatever it is |
| Vfs.ResolveAbsolute | components/ContainerCard.tsx:23-24 | an absolute target resolves the same from any current path |
| Vfs.ResolveDot | components/ContainerCard.tsx:30 | `.` resolves to a normal-form current path itself |
| Vfs.ResolveParent | components/ContainerCard.tsx:28-29 | `..` drops the last segment, and at the root it is a no-op |
| Vfs.ResolveIdempotent | components/ContainerCard.tsx:21-35 | a resolved path resolves to itself again from any current path |
| Vfs.SegmentsOfName | components/ContainerCard.tsx:9 | a valid name is a path of one segment |
| Vfs.PathOfSnoc | components/ContainerCard.tsx:34 | the path of one more segment is the child path of the shorter one |
| Vfs.ResolveChild | components/ContainerCard.tsx:21-35 | a plain name resolves to the child path, whose segments are the current ones plus the name |
| Vfs.SegmentsOfChild | components/ContainerCard.tsx:9 | appending `/` and a valid name appends that name to the segments |
| Vfs.NodeAtConcat | components/ContainerCard.tsx:11-17 | looking up a concatenated path is looking up the second part from the node the first part reaches |
| Vfs.ShortCircuit | components/ContainerCard.tsx:14-15 | once a segment meets a missing child or a file, the whole lookup fails with no partial result |
| Vfs.LookupRoot | components/ContainerCard.tsx:8 | looking up `/` gives the root itself |
| Vfs.FindWellFormed | types.ts:81-86 | a child found in well-formed children is well formed and named by its key |
| Vfs.NodeAtWellFormed | types.ts:81-86 | every node reached in a well-formed tree is well formed and carries the last segment as its name |
| Vfs.ModifyMissing | components/ContainerCard.tsx:43 | when the path names no directory, the update returns the tree unchanged |
| Vfs.ModifyTarget | components/ContainerCard.tsx:43-45 | at the path, the directory keeps its name and its children become the modifier applied to the old ones |
| Vfs.ModifyBelow | components/ContainerCard.tsx:43-45 | below the path, the updated tree holds what the new children hold |
| Vfs.ModifyElsewhere | components/ContainerCard.tsx:40-47 | every path that neither leads to the target nor passes through it sees the same node as before |
| Vfs.ModifyAncestors | components/ContainerCard.tsx:40-47 | the target's ancestors stay directories with their names and keys |
| Vfs.ModifyWellFormed | components/ContainerCard.tsx:39-48 | the update keeps a tree well formed when the new children are |
| Vfs.AddChildValid | components/ContainerCard.tsx:151-154 | adding a well-formed node under its own valid name keeps a root valid |
| Shell.Tokens | components/ContainerCard.tsx:67 | a line always yields a command token |
| Shell.Parse | components/ContainerCard.tsx:73-207 | a word selects the default case exactly when it is none of the known commands, and the default carries that word |
| Shell.ListCurrent | components/ContainerCard.tsx:100-114 | the `ls` handler computes `Shell.Ls` |
| Shell.ShowFile | components/ContainerCard.tsx:118-126 | the `cat` handler computes `Shell.Cat` |
| Shell.ChangeDirectory | components/ContainerCard.tsx:127-136 | the `cd` handler computes `Shell.Cd` |
| Shell.CreateDirectory | components/ContainerCard.tsx:137-158 | the `mkdir` handler computes `Shell.Mkdir` |
| Shell.CreateEmptyFile | components/ContainerCard.tsx:159-180 | the `touch` handler computes `Shell.Touch` |
| Shell.LaunchScript | components/ContainerCard.tsx:193-206 | the `php` and `python` handlers compute `Shell.RunScript` |
| Shell.RunStep | components/ContainerCard.tsx:73-207 | the command switch computes `Shell.Step` |
| Shell.Terminal.constructor | components/ContainerCard.tsx:56-57 | a terminal starts on its container with an empty transcript |
| Shell.Terminal.ExecuteCommand | components/ContainerCard.tsx:66-212 | one line moves the terminal to `Shell.Execute` of its old container and transcript |
| ShellProperties.CommandEmptyIff | components/ContainerCard.tsx:67 | the command token is empty exactly when the line is blank |
| ShellProperties.BlankLineIsSilent | components/ContainerCard.tsx:74-76 | a blank line prints nothing and changes nothing |
| ShellProperties.StepFrame | components/ContainerCard.tsx:70-71 | only `clear` clears; only `cd` moves the current path; only `mkdir` and `touch` change the tree; nothing else in the container changes |
| ShellProperties.ParseWords | components/ContainerCard.tsx:73-207 | each of `clear`, `cd`, `mkdir`, `touch`, `cat`, `pwd` selects its case and only that word does |
| ShellProperties.DispatchFrame | components/ContainerCard.tsx:66-212 | the frame stated for command lines: the command word decides what may change |
| ShellProperties.ClearEmptiesTranscript | components/ContainerCard.tsx:97-99 | `clear` empties the transcript and leaves the container |
| ShellProperties.TranscriptGrows | components/ContainerCard.tsx:209-211 | any other line keeps the transcript and appends at most one entry, carrying that line |
| ShellProperties.UnknownCommand | components/ContainerCard.tsx:68 | an unknown word reports `command not found` with that word and changes nothing |
| ShellProperties.NewChildValid | components/ContainerCard.tsx:151-154 | adding an empty directory or file under a valid name keeps the container valid |
| ShellProperties.StepPreservesValid | components/ContainerCard.tsx:73-207 | every command keeps the tree valid and the current path a normal-form directory path |
| ShellProperties.ExecutePreservesValid | components/ContainerCard.tsx:66-212 | every line keeps the container valid |
| ShellProperties.LsListsKeys | components/ContainerCard.tsx:100-114 | in a valid container `ls` is silent for an empty directory and otherwise lists its keys |
| ShellProperties.CatWithoutOperand | components/ContainerCard.tsx:119-124 | `cat` with no operand fails on the current directory and reports the operand as `undefined` |
| ShellProperties.CdOutcome | components/ContainerCard.tsx:127-136 | `cd` moves exactly when the resolved target is a directory, to that normal-form path, and otherwise reports the operand |
| ShellProperties.CdHome | components/ContainerCard.tsx:128 | `cd` with no operand goes to `/`, and `cd ..` at the root stays there |
| ShellProperties.MkdirOutcome | components/ContainerCard.tsx:137-158 | `mkdir` succeeds silently exactly for a fresh name with no separator. The directory then gains exactly one empty directory and every path off the current one is unchanged. Otherwise nothing changes, and the fault is the missing operand (no or empty operand), the invalid directory name (a separator in it) or the existing file, checked in that order |
| ShellProperties.TouchOutcome | components/ContainerCard.tsx:159-180 | `touch` reports only a missing operand (no or empty operand) or an invalid file name (a separator in it), and then changes nothing. An existing child keeps everything as it was. A fresh name gains one empty file, and every path off the current one is unchanged |
| ShellProperties.ScriptOutcome | components/ContainerCard.tsx:193-206 | `php` and `python` run exactly when the operand is their script's name and a node of that name sits in the current directory |
| ShellProperties.AiPrompt | components/ContainerCard.tsx:181-192 | the assistant is asked with everything after `ai `, and its reply or error is printed |
| ShellProperties.DoubleSpaceMissingOperand | components/ContainerCard.tsx:67-141 | two spaces after `mkdir` make the first argument empty: missing operand, nothing changes |
| ShellProperties.MkdirDotDot | components/ContainerCard.tsx:143-156 | `mkdir ..` is accepted and adds a child keyed `..` |
| ShellProperties.ChildLookup | components/ContainerCard.tsx:151-154 | after an insertion, the child path resolves from the name and looks up the inserted node |
| ShellProperties.RunMkdir | components/ContainerCard.tsx:137-158 | the line `mkdir name` for a fresh name is silent and inserts the empty directory |
| ShellProperties.CdChild | components/ContainerCard.tsx:127-136 | `cd` into a directory child moves to the child path |
| ShellProperties.RunCd | components/ContainerCard.tsx:127-136 | the line `cd name` into a directory child is silent and moves to the child path |
| ShellProperties.RunPwd | components/ContainerCard.tsx:115-117 | `pwd` prints the current path |
| ShellProperties.RunTouch | components/ContainerCard.tsx:159-180 | the line `touch name` for a fresh name is silent and inserts the empty file |
| ShellProperties.RunCat | components/ContainerCard.tsx:118-126 | the line `cat name` for a file child prints its content |
| ShellProperties.RunCatDirectory | components/ContainerCard.tsx:118-126 | the line `cat name` for a directory child reports the operand |
| ShellProperties.ExistingChild | components/ContainerCard.tsx:148-149 | for an existing child, `mkdir` reports that the file exists and `touch` is a silent no-op |
| ShellProperties.RunMkdirExisting | components/ContainerCard.tsx:148-149 | the line `mkdir name` for an existing child prints the error and changes nothing |
| ShellProperties.RunTouchExisting | components/ContainerCard.tsx:170-171 | the line `touch name` for an existing child prints nothing and changes nothing |
| ShellProperties.ChildFile | components/ContainerCard.tsx:120 | a file child of the current directory is what the child path looks up |
| ShellProperties.RunCdParent | components/ContainerCard.tsx:127-135 | `cd ..` from a child of a valid current directory is silent and returns to that directory |
| ShellProperties.RunLs | components/ContainerCard.tsx:100-114 | the line `ls` in a directory with children records their keys, in order, and changes nothing |
| ShellProperties.ProjectSession | components/ContainerCard.tsx:100-180 | the session `mkdir d`, `cd d`, `touch f`, `cd ..`, `ls` returns to the starting directory with only the filesystem changed. `d` then holds exactly the empty file `f`, and the one transcript entry is the listing, which is the old keys followed by `d` |
| ShellProperties.MkdirCdPwd | components/ContainerCard.tsx:115-158 | `mkdir a`, `cd a`, `pwd` end in the new empty directory, whose path is the only new transcript entry |
| ShellProperties.MkdirTwice | components/ContainerCard.tsx:137-158 | a second `mkdir a` reports that the file exists and leaves the state of the first |
| ShellProperties.MkdirThenCat | components/ContainerCard.tsx:118-158 | `cat` on a directory just made by `mkdir` fails and names it |
| ShellProperties.TouchThenCat | components/ContainerCard.tsx:118-180 | after `touch a`, the child path looks up an empty file and `cat a` shows empty content |
| ShellProperties.TouchKeepsContent | components/ContainerCard.tsx:159-180 | `touch` on an existing file is silent and `cat` still shows its content |
| Lifecycle.RunCommand | components/ContainerCard.tsx:322-359 | the click and the timer publish `Lifecycle.Started` and `Lifecycle.Finished` of the clicked container |
| LifecycleProperties.StartedState | components/ContainerCard.tsx:323-328 | the click moves to the loading status, which disables Install and Build. It appends one open command entry; nothing else changes |
| LifecycleProperties.FinishedState | components/ContainerCard.tsx:330-357 | success sets the next status and failure `error`. The entry records the command, the outcome and a message on failure or a successful build. Only a successful build changes the tree |
| LifecycleProperties.BothOutcomes | components/ContainerCard.tsx:331-355 | for every container and command, a draw of 0 moves to the command's next status (never `error`) with a succeeded entry, and every draw of 0.95 or more ends in `error` with a failed entry and the filesystem untouched |
| LifecycleProperties.PairWellFormed | types.ts:81-86 | two well-formed entries with different keys are well-formed children |
| LifecycleProperties.DistWellFormed | components/ContainerCard.tsx:337-345 | the build output is a well-formed directory named `dist` |
| LifecycleProperties.DistContents | components/ContainerCard.tsx:337-345 | `dist` holds `index.html` and `assets/index.js`, `assets/index.css` with their contents |
| LifecycleProperties.DistOnly | components/ContainerCard.tsx:337-345 | `dist` holds nothing else at its top level |
| LifecycleProperties.PutAtRoot | components/ContainerCard.tsx:346-349 | putting a directory at the root: the paths below its name lead into it, every other root entry is kept, the key keeps its place or is appended, and the root stays valid |
| LifecycleProperties.BuildCreatesDist | components/ContainerCard.tsx:336-349 | a successful build puts the `dist` tree at the root, in place of an earlier one or last, and keeps every other root entry and the root's validity |
| LifecycleProperties.BuildPaths | components/ContainerCard.tsx:346-349 | after a successful build every path under `/dist` is that of the build output |
| LifecycleProperties.RebuildOrphansCwd | components/ContainerCard.tsx:346-349 | a rebuild while the terminal is in a directory made under `/dist` leaves its current path dangling |
| LifecycleProperties.BuildKeepsCwd | components/ContainerCard.tsx:346-349 | a build keeps the container valid when the current path is outside `/dist` |
| LifecycleProperties.SessionSettled | components/ContainerCard.tsx:395-397 | clicks waited out keep the container settled and its path. They only grow the history. Once `running` or `error`, nothing changes any more |
| Explorer.Compare | components/ContainerCard.tsx:268 | directories sort before files, and nodes of one type by the name order |
| Explorer.Directories | components/ContainerCard.tsx:268 | the directories of a listing, each taken from it |
| Explorer.Files | components/ContainerCard.tsx:268 | the files of a listing, each taken from it |
| Explorer.OnlyFiles | components/ContainerCard.tsx:268 | a listing of files alone has no directories and is its own files |
| Explorer.DirectoriesFirst | components/ContainerCard.tsx:268 | whatever the name order, a sorted listing is its directories followed by its files |
| Seeding.CreateInitialFileSystem | components/SystemOperatorView.tsx:46-58 | the in-place seeding steps compute `Seeding.InitialFileSystem` |
| Seeding.AddToSrc | components/SystemOperatorView.tsx:53-55 | the update at `src` is a put into `src`'s children, and without a `src` directory nothing changes |
| Seeding.FileEntryWellFormed | types.ts:81-86 | a file under its own valid name is a well-formed entry |
| Seeding.DirEntryWellFormed | types.ts:81-86 | a directory with well-formed children under its own valid name is a well-formed entry |
| Seeding.AppendWellFormed | types.ts:81-86 | two runs of well-formed children with disjoint keys are well formed together |
| Seeding.ReactSrcWellFormed | components/SystemOperatorView.tsx:13-21 | the React `src` children are well formed |
| Seeding.ReactValid | components/SystemOperatorView.tsx:10-30 | the React + Vite template is a valid root |
| Seeding.VanillaValid | components/SystemOperatorView.tsx:32-43 | the vanilla template is a valid root |
| Seeding.ReactKeys | components/SystemOperatorView.tsx:11-29 | the React root's keys, in order |
| Seeding.ReactDistinct | components/SystemOperatorView.tsx:11-29 | the React root's keys are distinct |
| Seeding.ReactSrcAt | components/SystemOperatorView.tsx:13-21 | the React root's `src` is its `src` directory |
| Seeding.ReactSrcKeys | components/SystemOperatorView.tsx:14-20 | the React `src` keys, in order |
| Seeding.ReactScripts | components/SystemOperatorView.tsx:27-28 | the React root holds `webconsole.php` and `script.py` with their contents |
| Seeding.VanillaShape | components/SystemOperatorView.tsx:32-43 | the vanilla root's keys and its `src` directory with its keys |
| Seeding.ReactSeedable | components/SystemOperatorView.tsx:10-30 | the React template has a `src` directory and neither add-on yet |
| Seeding.VanillaSeedable | components/SystemOperatorView.tsx:32-43 | the vanilla template has a `src` directory and neither add-on yet |
| Seeding.VanillaScripts | components/SystemOperatorView.tsx:32-43 | the vanilla root holds neither script |
| Seeding.BaseShape | components/SystemOperatorView.tsx:46-47 | the chosen template can take the add-ons and holds the scripts exactly when the base names `REACT` |
| Seeding.AddOnsElsewhere | components/SystemOperatorView.tsx:49-55 | root entries other than the Tailwind configuration and `src` are the template's |
| Seeding.AddOnsTailwind | components/SystemOperatorView.tsx:49-51 | the root gains `tailwind.config.js`, last, exactly when `ui` includes `TAILWIND` |
| Seeding.TailwindStep | components/SystemOperatorView.tsx:49-51 | the Tailwind step appends the configuration exactly when `ui` includes `TAILWIND` |
| Seeding.DbKeepsRoot | components/SystemOperatorView.tsx:53-55 | the IndexedDB step keeps the root's keys and its Tailwind entry |
| Seeding.TailwindKeepsSrc | components/SystemOperatorView.tsx:49-51 | the Tailwind step leaves `src` as it was |
| Seeding.DbStepInSrc | components/SystemOperatorView.tsx:53-55 | the IndexedDB step sets `src/db.js` exactly when `datastore` includes `IndexedDB`, and no other entry of `src` |
| Seeding.DbStepKeys | components/SystemOperatorView.tsx:53-55 | the IndexedDB step appends `db.js` to `src`'s keys exactly when it applies |
| Seeding.AddOnsDb | components/SystemOperatorView.tsx:53-55 | `src` gains `db.js`, last, exactly when `datastore` includes `IndexedDB`, and keeps its other entries |
| Seeding.AddOnNames | components/SystemOperatorView.tsx:50-54 | both add-on names are valid names |
| Seeding.AddOnsValid | components/SystemOperatorView.tsx:49-55 | the add-ons keep a valid root valid |
| Seeding.InitialValid | components/SystemOperatorView.tsx:46-58 | every seeded filesystem is a directory named `/` whose keys are their children's names |
| Seeding.InitialTemplate | components/SystemOperatorView.tsx:27-28 | `webconsole.php` and `script.py` are at the root exactly when the base names `REACT`, with the template's contents |
| Seeding.InitialTailwind | components/SystemOperatorView.tsx:49-51 | `tailwind.config.js` is at the root exactly when `ui` includes `TAILWIND`, after the template's keys; no other root entry but `src` differs |
| Seeding.InitialDb | components/SystemOperatorView.tsx:53-55 | both templates have `src`. `src/db.js` exists exactly when `datastore` includes `IndexedDB`, after `src`'s own keys, which keep their entries |
| Containers.NewContainerState | components/SystemOperatorView.tsx:116-132 | a new container has the operator, status `initialized`, path `/` and exactly one `create` entry. It is valid exactly when its filesystem is a valid root |
| Containers.InitiateBuildAppends | components/SystemOperatorView.tsx:110-133 | a blank or unparsed prompt leaves the list as it is. Otherwise the list is kept and exactly one valid container is appended, with the id, the prompt, the parsed templates and the tree seeded from them |
| Containers.UpdateReplaces | components/SystemOperatorView.tsx:102-104 | an update keeps the length, the order and the ids, and replaces exactly the entries with the updated id |
| Containers.UpdateAbsent | components/SystemOperatorView.tsx:102-104 | an update with an id not in the list changes nothing |
| Containers.UpdateIdempotent | components/SystemOperatorView.tsx:102-104 | updating twice is updating once |
| Containers.DeleteConcat | components/SystemOperatorView.tsx:106-108 | deleting from two runs is deleting from each, in order |
| Containers.DeleteRemoves | components/SystemOperatorView.tsx:106-108 | no container with the id remains; every other is kept as often as it was there; the list does not grow |
| Containers.DeleteIdempotent | components/SystemOperatorView.tsx:106-108 | deleting twice is deleting once |
| Containers.DeleteAbsent | components/SystemOperatorView.tsx:106-108 | a list without the id is left as it is |
| Findings.InheritedNamesPlain | components/ContainerCard.tsx:139-146 | every inherited property name passes the operand checks |
| Findings.InheritedNameRefused | components/ContainerCard.tsx:147-180 | for an inherited name the directory lacks, `mkdir` and `touch` as written refuse or do nothing, while the own-property reading adds the entry |
| Findings.ToStringCounterexample | components/ContainerCard.tsx:148 | in an empty root, `mkdir toString` as written reports that the file exists and `touch toString` creates nothing |
| Findings.AgreeOtherwise | components/ContainerCard.tsx:147-180 | for every other name, the code as written and the own-property reading agree |

## Left out

- The help text and the colouring of `ls` are rendering. `ls` is modelled as the sequence of child names and `help` as one output value.
- The message texts are the `Shell.FaultText`, `Shell.ScriptText` and `Shell.FileShown` functions over the output values. The lemmas state the output values, not the strings.
- `ai` calls a language model over the network. The assistant is a function parameter that returns a reply or a rejection, and the loading flag is not modelled.
- Timers, `Math.random`, the random container id and the timestamps are parameters: the draw `roll`, the strings `id`, `createdAt` and `at`. The delays are constants of `Lifecycle.RunOf` and play no part.
- `parseBuildPrompt` is a call to the language model. Its result is the `parsed` parameter of `Containers.InitiateBuild`, and `None` stands for the error branch. The error message and the loading flag are not modelled.
- The timer's callback in `runCommand` publishes a container built from the snapshot taken at the click. The model computes the finished state from that snapshot and does not model a later overwrite of concurrent changes.
- Persistence in IndexedDB and the effects that load and save the list are I/O and are left out.
- `localeCompare` between names is a parameter of `Explorer.Compare`. `Array.prototype.sort` itself is not modelled; `Explorer.DirectoriesFirst` holds for any listing it may return.
- `Vfs.Lookup` models `getNodeByPath` except for one value. The source reads `children[part]` as a plain property, so a segment such as `toString` yields the inherited function rather than null, while `Vfs.Lookup` yields `None`. Every caller tests the result's `type` or looks up a fixed script name, so no command behaves differently.
- JavaScript orders integer-like keys of an object numerically before the others. The model keeps plain insertion order for every key.
- The deep copies made with JSON are the identity on values. So the constant templates are never changed by later commands, by construction rather than by a lemma.
- In the model a directory always has a children sequence. A directory without a `children` object never arises: no seeding, build or command creates one. The source would treat one differently from an empty directory (`ls` reports it as not a directory), and the model does not represent it.
- Speech, the other views, the agent cards and the service modules are not part of this model.
- The file contents of the templates are a parameter of the seeding functions (`Seeding.SeedTexts`). The lemmas hold for any contents, and so for the source's strings in `Seeding.SourceTexts`; no lemma spells those strings out.

## Findings

| source | as written | input that shows it | evidently intended | confidence | as-written member | corrected member |
|---|---|---|---|---|---|---|
| components/ContainerCard.tsx:148 | `mkdir` tests for an existing child with a property read on the children object. That read is also truthy for the names every object inherits, such as `toString` | `mkdir toString` in a directory without such a child | only an own child counts as existing, so the directory is created | not executed | Findings.MkdirAsWritten, Findings.ToStringCounterexample | Shell.Mkdir, ShellProperties.MkdirOutcome |
| components/ContainerCard.tsx:170 | `touch` uses the same property read, so an inherited name counts as an existing file | `touch toString` in a directory without such a child | the empty file is created | not executed | Findings.TouchAsWritten, Findings.ToStringCounterexample | Shell.Touch, ShellProperties.TouchOutcome |
