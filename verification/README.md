# cli: command registry, dispatcher and the `command.add` scaffolder

This project models the core of the Go package `cli` (github.com/3d0c/cli) and of its code
generator `cligen`:

- **Registry** (`pkg/register.go`): a package-level map from a command's dotted name
  (`group.subcommand`) to the command. `Register` stores a command under a name, and `List`
  hands out the map itself. A Go map is a reference, so the map is a class `CommandMap` whose
  `entries` the operations reassign.
- **Errors** (`pkg/error.go`): `cli.Error` has a code and a message. `ErrFlagRequired` and
  `ErrWrongFormat` build the two "show usage" errors. The Go `error` values that flow through the
  dispatcher are the datatype `Failure`: a `*cli.Error`, the flag package's `flag.ErrHelp`, or any
  other error with its text.
- **Dispatcher** (`pkg/cli.go`): `Run` takes the command-line arguments. It shows the sorted
  command listing (`generalHelp`) for no argument, for `-h`/`--help` and for an unknown command.
  Otherwise it drives the command through `Register`, flag parsing, `Process` and `Run`, then
  turns the outcome into an exit code. A deferred per-command usage fires when the final error is
  `flag.ErrHelp`. The model records what is printed as a sequence of events. A command is
  represented by what the dispatcher observes of it: the flags it declares, the error its
  `Process` returns, and the output and error its `Run` returns. The outcome of flag parsing is
  an input.
- **Scaffolder** (`cmd/cligen/command/add.go`): the `command.add` command object, a class
  `AddCommand` with the command's fields.
  - `Process` validates `-name group/subcommand` and `-package`, then derives the module
    directory, the module file and the entry point `main.go` under `GOPATH/src/<package>`. It
    refuses an existing module file unless `-force` is given, and writes a default `main.go`
    when there is none.
  - `Run` creates the module directory, writes the module file from its template, then adds the
    blank import `_ "<package>/<group>"` to the entry point and writes it back.
  - The filesystem is a value (`Files.Fs`) that the methods take and return: what each path
    holds, which directories exist, and which OS operations fail on which paths with which
    error.
  - Each method is proved equal to a specification function (`ProcessSpec`, `RunSpec`). The
    properties of the command are lemmas about those functions, in `ScaffoldFacts`.

Go library behaviour the core relies on is modelled explicitly:

- `strings.Split` with a one-character separator keeps empty pieces.
- `filepath.Join` drops empty elements.
- `os.OpenFile` with `O_CREATE` fails with "no such file or directory" when the parent directory
  is missing, and `os.MkdirAll` creates every missing ancestor.
- A regular file where a directory is needed is an error of the OS, not a missing path.
  `os.Stat` of a path below a file fails with "stat <path>: not a directory", which
  `os.IsNotExist` does not accept. `os.MkdirAll` fails with "mkdir <file>: not a directory",
  naming the highest file on the way. `os.OpenFile` fails with "open <path>: not a directory"
  below a file and with "open <path>: is a directory" on a directory. Reading a directory
  with `parser.ParseFile` fails with "read <path>: is a directory".
- `parser.ParseFile` with mode 0 keeps no comments. It accepts a hand-written Go file, and a
  rendered module template exactly when its group (the package name) and subcommand (the type
  name) are Go identifiers. It rejects an empty file with "<file>:1:1: expected 'package', found
  'EOF'", and a module with an empty group with "<file>:4:1: expected 'IDENT', found 'import'".
- Go's byte-wise string order is modelled on code points; for UTF-8 the two orders agree.
- `sort.Strings` is modelled as an insertion sort, specified as sorted plus permutation.
- A map's unspecified iteration order is modelled by an arbitrary choice.
- `astutil.AddNamedImport` returns false exactly when the file already has the same
  `(name, path)` import.

Behaviour of the code that a reader of the documentation might not expect, as proved here:

- Running the scaffolder twice with `-force` does not succeed twice. The second `Process` passes,
  and the module file is rewritten. But the entry point already has the import, so the import add
  reports false and `Run` fails with "error adding import …" (add.go:189-191). The files end as
  the first run left them (`ScaffoldFacts.RepeatWithForce`).
- The deferred usage fires whenever the final error is `flag.ErrHelp`, whichever stage returned
  it. It is not limited to flag parsing. A `*cli.Error` with code `ErrHelp` is a different value
  from `flag.ErrHelp` and does not trigger it.
- `Process` rewrites the `Name` field to the group, so a second `Process` on the same object
  fails. It fails with a wrong-format error, or with "-name is required" when the group was empty.
- With `-name "/main"` the module file is the entry point itself (`GOPATH/src/<package>/main.go`).
  `Process` creates the default `main.go`, `Run` overwrites it with the module template, and
  then cannot parse it: the template's package clause is empty, and `Run` fails with
  "<main.go>:4:1: expected 'IDENT', found 'import'". The entry point is lost
  (`ScaffoldFacts.SlashMainOverwritesEntryPoint`).
- An empty group is accepted (`-name "/push"`). The module file is then
  `GOPATH/src/<package>/push.go`, and the import added to the entry point is `"<package>/"`.
- A module written by one scaffold can be the entry point of a later one: `-package p -name
  x/main` writes `GOPATH/src/p/x/main.go`, which `-package p/x` then takes as its `main.go`. With
  identifier group and subcommand that file parses, and `Run` adds the import to it
  (`ScaffoldFacts.ModuleAsEntryPoint`).
- A regular file on the way to the module directory stops `Process` at its first check, with
  "error checking group/subcommand - stat <module file>: not a directory"
  (`ScaffoldFacts.FileInTheWayRefused`).
- `-name main.go/<subcommand>` names the module directory after the entry point. On a fresh
  project `Process` creates `main.go` as a file, and `Run` then fails with "error creating
  destination directory - mkdir <main.go>: not a directory" (`ScaffoldFacts.MainGoGroupBlocked`).
- `Process` does not create the project directory `GOPATH/src/<package>`. It opens `main.go` with
  `O_CREATE`, which fails when the directory is missing, so for a new project `Process` fails with
  "error creating output file - open …: no such file or directory"
  (`ScaffoldFacts.MissingProjectRootRefused`). Only `Run` creates directories, with
  `os.MkdirAll`, and by then `Process` has already failed.
- `Run` parses the entry point without comments (`parser.ParseFile` with mode 0) and prints the
  parsed file back. Every comment in `main.go` is lost, including the "Code generated by go
  generate" header of the default template (`ScaffoldFacts.RunSucceeded`).

## Model

| member | source | states |
|---|---|---|
| Errors.ErrFlagRequired | pkg/error.go:20-25 | the error carries code ErrHelp and the message "-<flag> is required", from which exactly that flag reads back |
| Errors.ErrWrongFormat | pkg/error.go:27-32 | the error carries code ErrHelp and the message "-<flag> has wrong format", from which exactly that flag reads back |
| Errors.FlagNamedInverts | pkg/error.go:20-32 | reading the flag out of "-" + flag + suffix gives back that flag: the message construction is invertible |
| Errors.ConstructorsDiffer | pkg/error.go:20-32 | a "required" message never equals a "wrong format" message, for any two flags; both begin with "-" and the flag |
| Errors.MessageIgnoresCode | pkg/error.go:16-18 | printing a cli.Error shows its wrapped message, whatever its code |
| Registry.CommandMap.constructor | pkg/register.go:3 | the registry starts empty |
| Registry.Register | pkg/register.go:5-7 | the name maps to the command (the last registration wins), the names become the old names plus this one, and every other entry is unchanged |
| Registry.List | pkg/register.go:9-11 | the result is the registry object itself, so later registrations show through it |
| Strings.Split | cmd/cligen/command/add.go:112 | there is one piece more than the separators in the string, and no piece contains the separator |
| Strings.JoinSplit | cmd/cligen/command/add.go:112 | joining the pieces with the separator gives back the original string |
| Strings.SplitWithoutSeparator | cmd/cligen/command/add.go:112-115 | a string without the separator splits into itself alone |
| Strings.SplitPair | cmd/cligen/command/add.go:112-118 | a + "/" + b with no '/' in a or b splits into exactly [a, b], empty halves included |
| Strings.SplitInTwo | cmd/cligen/command/add.go:112-118 | there are two pieces exactly when there is one separator; then the string is the first piece, the separator and the second piece |
| Strings.JoinEmpty | cmd/cligen/command/add.go:124-126 | the joined path is empty exactly when every element is empty |
| Strings.JoinTwo | cmd/cligen/command/add.go:125 | two non-empty elements are joined with exactly one separator |
| Strings.JoinUnderSrc | cmd/cligen/command/add.go:124-126 | GOPATH/src/package is never empty, and a last element is appended after a separator unless it is empty |
| StringOrder.LessIrreflexive | pkg/cli.go:27 | no string sorts before itself |
| StringOrder.LessTransitive | pkg/cli.go:27 | the string order is transitive |
| StringOrder.LessTotal | pkg/cli.go:27 | of two different strings, one sorts before the other |
| StringOrder.Insert | pkg/cli.go:27 | inserting into a sorted list keeps it sorted and adds exactly that element |
| StringOrder.Sort | pkg/cli.go:27 | the result is sorted and is a permutation of the input |
| StringOrder.SortedDistinctIsStrict | pkg/cli.go:21-27 | sorting the keys of a map gives a strictly increasing list |
| StringOrder.StrictListingUnique | pkg/cli.go:21-27 | two strictly increasing lists with the same elements are equal |
| Cli.FlagValue | pkg/cli.go:116-120 | a flag has a value exactly when the command declared it; a given flag has the value given, and one not given its default |
| Cli.GeneralFlagsShowOutput | pkg/flags.go:12-15 | a command with the General -silent flag at its default "false", not given, shows its output |
| Cli.ListingIsDetermined | pkg/cli.go:21-27 | the listing does not depend on the map's iteration order: any two listings of the same names are equal |
| Cli.RegisteredNameListed | pkg/cli.go:23-25 | a registered name appears in the listing, and registering grows the listing by one exactly when the name is new |
| Cli.GeneralHelp | pkg/cli.go:18-32 | the listing holds every registered name exactly once, in strictly increasing order |
| Cli.Run | pkg/cli.go:72-139 | the exit code and printed events for every path: 1 and the listing for no arguments or an unknown command; 0 and the listing for -h/--help; 1 after a parse error, with usage for flag.ErrHelp or else the message; 1 after a Process error, with its message, Run not called; otherwise 1 exactly when Run fails, its output shown unless silent, its error printed after "! ", usage when the final error is flag.ErrHelp |
| GoSource.AddNamedImport | cmd/cligen/command/add.go:189-191 | reports an addition exactly when the same import is absent; then the import is inserted with the other imports kept in order; otherwise the file is unchanged; the declarations and comments are always kept |
| GoSource.AddNamedImportLeavesOne | cmd/cligen/command/add.go:185-191 | after the add the import occurs exactly once, and no other import's count changes |
| GoSource.AddNamedImportIdempotent | cmd/cligen/command/add.go:189-191 | adding the same import a second time reports false and changes nothing |
| Files.Dir | cmd/cligen/command/add.go:140 | the parent directory of a non-empty path is shorter than the path |
| Files.DirOfChild | cmd/cligen/command/add.go:125-126 | the parent of a + "/" + b, with no '/' in b, is a |
| Files.Lineage | cmd/cligen/command/add.go:162 | a non-empty path is among the directories MkdirAll creates for it |
| Files.LineageBelow | cmd/cligen/command/add.go:162 | the path and the directories above it are no longer than the path |
| Files.FileOnPath | cmd/cligen/command/add.go:162 | there is no file on the path exactly when neither the path nor a directory above it is a regular file; a file found is on the path and is a regular file |
| Files.Stat | cmd/cligen/command/add.go:128-138 | a fault's error is the one returned; below a regular file the result is "stat <path>: not a directory"; otherwise the path is found exactly when it is a file or a directory, and missing exactly when it is neither |
| Files.MkdirAll | cmd/cligen/command/add.go:162-164 | it succeeds exactly when the path is non-empty, no fault is set and no regular file is on the path; a fault's error is the one returned, and a file on the path gives "mkdir <highest such file>: not a directory"; on success the directory and every ancestor exist and no file or fault changes; on failure nothing changes |
| Files.OpenTrunc | cmd/cligen/command/add.go:166-169 | it succeeds exactly when no fault is set, no regular file is above the path, the parent directory exists and the path is not a directory; a fault's error is the one returned, a file above gives "open <path>: not a directory", a missing parent "open <path>: no such file or directory", and a directory "open <path>: is a directory"; on success the file exists and is empty, and the directories are unchanged; on failure nothing changes |
| Files.Write | cmd/cligen/command/add.go:172-174 | it succeeds exactly when no write fault is set for the path, and a fault's error is the one returned; on success the file holds what was written and the directories and faults are kept; on failure nothing changes |
| Files.SyntaxTree | cmd/cligen/command/add.go:180 | the parsed tree has no comments; a hand-written file keeps its imports and declarations |
| Files.ParseFile | cmd/cligen/command/add.go:180-183 | parsing succeeds exactly when the file can be read, no regular file is above it, it is not a directory, it exists and it parses as Go (hand-written source, or a module with identifier group and subcommand), and gives its syntax tree; a directory fails with "read <path>: is a directory", an empty file with ":1:1: expected 'package', found 'EOF'", a module with an empty group with ":4:1: expected 'IDENT', found 'import'" |
| Scaffold.AddCommand.constructor | cmd/cligen/command/add.go:86-91 | the object holds -name, -package and -force, with every derived field empty |
| Scaffold.AddCommand.Process | cmd/cligen/command/add.go:104-153 | the new fields, the filesystem and the error are those of ProcessSpec on the old fields |
| Scaffold.AddCommand.Run | cmd/cligen/command/add.go:155-204 | the output is always empty; the filesystem and the error are those of RunSpec on the fields |
| ScaffoldFacts.ValidationErrors | cmd/cligen/command/add.go:105-115 | each validation error occurs exactly when its condition holds, in the code's order, and leaves the fields and the filesystem as they were |
| ScaffoldFacts.AcceptedNameIsSplit | cmd/cligen/command/add.go:112-118 | an accepted -name is group + "/" + subcommand, neither holding a '/'; -package and -force are kept |
| ScaffoldFacts.NameExamples | cmd/cligen/command/add.go:112-115 | "g/" is accepted with an empty subcommand; "a//b" is a wrong format |
| ScaffoldFacts.SecondProcessFails | cmd/cligen/command/add.go:104-118 | a second Process on the same object fails: wrong format, or -name required when the group is empty; nothing changes |
| ScaffoldFacts.PathLayout | cmd/cligen/command/add.go:120-126 | GOPATH is the environment's, else the build default; the module directory is GOPATH/src/package/group, the module file is subcommand.go in it, and the entry point is GOPATH/src/package/main.go |
| ScaffoldFacts.DeriveLayout | cmd/cligen/command/add.go:124-126 | the three derived paths written out: GOPATH/src/package/group, then subcommand.go in it, then GOPATH/src/package/main.go |
| ScaffoldFacts.ScaffoldedParents | cmd/cligen/command/add.go:124-126 | for a well-formed -name the project root and both module paths are set, the module directory is the module file's parent, the project root is the entry point's parent, and the module file is the entry point exactly for "/main" |
| ScaffoldFacts.DeriveParents | cmd/cligen/command/add.go:124-126 | the derived module directory is the parent of the module file, and GOPATH/src/package the parent of the entry point |
| ScaffoldFacts.PathsCoincide | cmd/cligen/command/add.go:124-126 | the module file path equals the entry point path exactly when the group is empty and the subcommand is "main" |
| ScaffoldFacts.ModuleFileIsEntryPointOnlyForMain | cmd/cligen/command/add.go:124-126 | after Process, the module file is the entry point exactly for -name "/main" |
| ScaffoldFacts.ExistingModuleRefused | cmd/cligen/command/add.go:128-131 | an existing module file without -force gives the "already exists" error, and nothing is written |
| ScaffoldFacts.ExistingModuleForced | cmd/cligen/command/add.go:128-150 | with -force an existing module file is ignored; the outcome is that of the entry point step |
| ScaffoldFacts.StatFailureRefused | cmd/cligen/command/add.go:132-136 | a stat failure other than "not exist" gives "error checking group/subcommand - …", and nothing is written |
| ScaffoldFacts.ProcessWritesOnlyMissingEntryPoint | cmd/cligen/command/add.go:104-153 | Process changes at most the entry point, only when stat said it did not exist, leaving it either empty or the default main.go; a validation error changes nothing |
| ScaffoldFacts.MissingEntryPointCreated | cmd/cligen/command/add.go:138-150 | a missing entry point that can be opened and written (no fault, no file above it, its directory present) becomes the default main.go, and Process succeeds |
| ScaffoldFacts.RunNeedsProcess | cmd/cligen/command/add.go:156-158 | Run without the derived paths fails with "uninitialized" and writes nothing |
| ScaffoldFacts.WriteModuleFrame | cmd/cligen/command/add.go:160-174 | writing the module touches only the module file and its directory; on success the file holds the rendered template |
| ScaffoldFacts.ModuleWrittenFirst | cmd/cligen/command/add.go:160-204 | whenever Run changes the entry point, the module file already holds the template; a failure while writing the module leaves the entry point alone; no other file changes |
| ScaffoldFacts.RewriteSameModule | cmd/cligen/command/add.go:162-174 | writing the module again over a scaffolded project succeeds and leaves every file as it was |
| ScaffoldFacts.ImportAlreadyPresent | cmd/cligen/command/add.go:185-191 | when the entry point is a readable file that already has the import, Run fails with "error adding import '<package>/<group>' to '<main.go>'", does not rewrite the entry point, and leaves the module file written |
| ScaffoldFacts.RunSucceeded | cmd/cligen/command/add.go:155-204 | after a successful Run, the module file holds the template; the entry point parsed as Go (hand-written, or an earlier module) without the import and is now Go source with it inserted, with the other imports in order and the declarations kept, but every comment dropped; the directories grow at most by the module directory and its ancestors; no other file changes |
| ScaffoldFacts.WellFormedName | cmd/cligen/command/add.go:105-118 | group + "/" + subcommand, neither holding a '/', passes validation with those two halves |
| ScaffoldFacts.ProcessDerives | cmd/cligen/command/add.go:112-126 | for a well-formed -name, Process sets the group, subcommand and paths whatever it finds on disk |
| ScaffoldFacts.ScaffoldedLineage | cmd/cligen/command/add.go:124-126 | the directories from the module directory up include those from the project root up, never the module file, and the entry point only for the group "main.go" |
| ScaffoldFacts.ModuleDirLineage | cmd/cligen/command/add.go:124-126 | the directories from root/group up include those from root up, and hold root/main.go exactly when the group is "main.go" |
| ScaffoldFacts.FileInTheWayRefused | cmd/cligen/command/add.go:128-136 | with a regular file on the way to the module directory, Process fails with "error checking group/subcommand - stat <module file>: not a directory" and writes nothing |
| ScaffoldFacts.BlockedModuleCheck | cmd/cligen/command/add.go:128-136 | with a regular file above the module file, the module check fails with "error checking group/subcommand - stat <module file>: not a directory" |
| ScaffoldFacts.MissingProjectRootRefused | cmd/cligen/command/add.go:138-143 | when GOPATH/src/package does not exist, no regular file is on the way to the module directory and there is no entry point, Process fails with "error creating output file - open <main.go>: no such file or directory" and writes nothing |
| ScaffoldFacts.FreshProcess | cmd/cligen/command/add.go:104-153 | on an existing project root with no regular file on the way to the module directory and no module file, Process succeeds, creates no directory, adds only the entry point to the files, and leaves an entry point without the import |
| ScaffoldFacts.EntryPointFrame | cmd/cligen/command/add.go:138-150 | creating the default entry point writes only that file, only when stat said it did not exist, leaving it empty or the default main.go; its failures are plain errors |
| ScaffoldFacts.FreshEntryPoint | cmd/cligen/command/add.go:138-150 | where the entry point can be created it is written from the default template when absent and left alone when present, without error |
| ScaffoldFacts.MissingRootEntryPoint | cmd/cligen/command/add.go:138-143 | creating the entry point in a missing directory fails with "error creating output file - open <main.go>: no such file or directory" and writes nothing |
| ScaffoldFacts.AcceptedFailsPlainly | cmd/cligen/command/add.go:128-153 | once the flags are accepted, every failure of Process is a plain error, never a cli.Error |
| ScaffoldFacts.ProcessStages | cmd/cligen/command/add.go:104-153 | for a well-formed -name, Process sets the derived fields, stops at a failed module check, and otherwise has the outcome of the entry point step |
| ScaffoldFacts.PatchFrame | cmd/cligen/command/add.go:176-201 | patching the entry point changes no file but the entry point, and no directory or fault |
| ScaffoldFacts.PatchSucceeded | cmd/cligen/command/add.go:176-201 | a successful patch found the entry point parsing as Go without the import, and left it Go source with the import inserted, the other imports in order, the declarations kept and no comments; nothing else changes |
| ScaffoldFacts.PatchAlreadyPresent | cmd/cligen/command/add.go:180-191 | an entry point that already has the import makes the patch fail with "error adding import '<package>/<group>' to '<main.go>'" and change nothing |
| ScaffoldFacts.RepeatRun | cmd/cligen/command/add.go:155-191 | Run over a scaffolded project fails at the import add and leaves every file as it was |
| ScaffoldFacts.FirstRun | cmd/cligen/command/add.go:155-204 | a Run on distinct module and entry point paths, with no regular file on the way to the module directory, no directory at the module file, the entry point's directory present and no import yet, succeeds, leaves the project scaffolded and the import in the entry point exactly once |
| ScaffoldFacts.FirstScaffold | cmd/cligen/command/add.go:104-204 | on an existing project root with no regular file on the way to the module directory, no module file and no import yet, for any -name but "/main" and "main.go/<subcommand>", Process and Run both succeed; the module file holds the template and the entry point has the import exactly once |
| ScaffoldFacts.ModuleOverwritesEntryPoint | cmd/cligen/command/add.go:160-183 | with an empty group, the module file the entry point, no regular file on the way to the module directory and no directory at the module file, Run overwrites the entry point with the module template and fails at parsing it with "<main.go>:4:1: expected 'IDENT', found 'import'" |
| ScaffoldFacts.ModuleAsEntryPoint | cmd/cligen/command/add.go:155-204 | a rendered module with identifier group and subcommand, serving as another project's entry point (under the conditions of FirstRun), parses; Run succeeds, keeps the module's declarations and adds the import exactly once |
| ScaffoldFacts.SlashMainOverwritesEntryPoint | cmd/cligen/command/add.go:124-183 | with -name "/main" on a fresh project Process succeeds, then Run replaces the entry point by the module template and fails with "<main.go>:4:1: expected 'IDENT', found 'import'" |
| ScaffoldFacts.SlashMainProcess | cmd/cligen/command/add.go:104-153 | with -name "/main" on a fresh project Process succeeds, and the module file is the entry point it wrote, with no file on the way and no directory there |
| ScaffoldFacts.MainGoGroupPath | cmd/cligen/command/add.go:124-126 | for the group "main.go" the module directory is the entry point's path |
| ScaffoldFacts.MainGoGroupBlocked | cmd/cligen/command/add.go:124-164 | with -name main.go/<subcommand> on a fresh project Process succeeds, then Run fails with "error creating destination directory - mkdir <main.go>: not a directory" and writes nothing |
| ScaffoldFacts.MainGoBlocksMkdir | cmd/cligen/command/add.go:162-164 | when the module directory is the entry point file, Run fails at MkdirAll naming that file, and writes nothing |
| ScaffoldFacts.RepeatWithoutForce | cmd/cligen/command/add.go:128-131 | repeating a scaffold without -force, for any well-formed -name including an empty group, is refused with "already exists", and nothing is written |
| ScaffoldFacts.RepeatWithForce | cmd/cligen/command/add.go:128-191 | repeating a scaffold with -force, for any well-formed -name including an empty group, passes Process, but Run fails at the import add; every file is as before, so the import never appears twice |
| ScaffoldFacts.OriginPushExample | cmd/cligen/command/add.go:120-126 | -name origin/push, -package github.com/acme/tool and GOPATH /tmp/gopath give the module file /tmp/gopath/src/github.com/acme/tool/origin/push.go, the entry point /tmp/gopath/src/github.com/acme/tool/main.go and the import github.com/acme/tool/origin |
| ScaffoldFacts.AddOutputShownByDefault | cmd/cligen/command/add.go:86-91 | the command declares the General -silent flag, so the dispatcher shows its output by default |

## Left out

- Real I/O. The filesystem, the environment variable `GOPATH` and the build tool's default GOPATH are parameters. OS failures are a fixed table of faults per operation and path, and the model does not cover errors that change over time.
- Printing. `fmt` output, the tabwriter layout of `commandHelp`, and the `Usage`/`Description` texts are events or left out. Only which events occur, and in which order, is modelled.
- The `log.Printf` progress lines of the scaffolder's `Run` are not modelled.
- Flag parsing. The flag package's parser is not modelled; the dispatcher takes its outcome (the values given, or an error) as an input. The `-n` dry-run flag is declared but never read by the core, so nothing depends on it.
- Templates. The two templates' text is not modelled. The module file's content is `Module(group, subcommand)`, and the default `main.go` is a document importing "os" and package cli.
- Files.ParseFile: identifiers are ASCII only (Go also allows Unicode letters and digits). A rendered module whose group or subcommand is not an identifier fails with an approximate text, since go/parser's message there depends on the characters and their column. The empty file and the empty group get the parser's exact texts.
- GoSource.AddNamedImport: promises only that the new import is inserted at some position with the others kept in order. The body appends it. astutil's choice of import group and position, and its rewrite of a single import into a parenthesised block, are not modelled.
- Strings.Join: does not model `filepath.Clean` (no "..", "." or repeated-separator normalisation).
- ScaffoldFacts.ModuleFileIsEntryPointOnlyForMain: holds for the paths as the model joins them, without `filepath.Clean`. In Go, `-name "./main"` and other uncleaned forms also make the module file the entry point; the model treats them as different paths.
- Files.OpenTrunc: only the parent directory's existence is checked, since the filesystem value does not require every ancestor of a directory to be a directory too; a file above the path is reported before a missing parent, whichever is higher.
- Files.Stat: like OpenTrunc, reports "not a directory" before "no such file or directory" when both a file above and a missing directory are on the path.
- Files.MkdirAll: the real call can also fail part way and leave some ancestors created; here it either creates them all or changes nothing.
- Files.Write: a failed write leaves the file as it was. A real partial write could leave part of the text.
- Concurrency: the registry is filled by `init` functions before `main` runs, and the model is sequential. Registering `command.add` at start-up (add.go:82-84) is the `Registry.Register` call, not a separate member.
- cmd/cligen/main.go, the tool's own entry point, only calls `Run`, and is not part of this model.
- The `Command` interface's `Register`, `Process` and `Run` are opaque to the dispatcher. It sees only the flags declared and the results returned, not what a command does to its own fields.
