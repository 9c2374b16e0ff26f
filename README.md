# plywood command-line, plytool and web-server core in Dafny

This project models three parts of the plywood repository and proves
properties of them.

- **`ply-cli`, the command-line parser.** The repository holds three revisions
  of the same idea, and each is its own module here:
  - `CliContext` models `Context.cpp`/`Context.h`. `Context::build` walks
    argv and sorts each token into options, subcommands and positionals.
    `mergeCommand` fills the option and argument maps. `parseOptions` handles
    `--name=value` and `-s` tokens and records errors. `parseArguments` binds
    positionals by index. The module also covers the `option`/`argument`
    lookups, the `run` error gate and the aligned usage rows.
  - `CliCommandLine` models `CommandLine.h`, the revision the unit tests
    exercise. Its pieces are `build`, `append` with its five hash maps,
    `parseArgs` and `foundLeafCommand`. The three unit-test scenarios are
    proved as methods.
  - `CliTree` models `Cli.h`. It covers the `Command` tree with its parent
    links, `Context::build`, `merge`, and the path, command rows and flag rows
    that `printUsage` computes.
  - `CliDefinitions` models the definition classes of `Definitions.h`/`.cpp`,
    which `CommandLine.h` uses.
- **plytool's build-folder edits**, over `BuildFolder`, `Workspace` and
  `ToolEnv` classes:
  - `PlyFolder` covers folder list, create, delete and set.
  - `PlyTarget` covers target list, add, remove, set and the ASCII dependency
    graph.
  - `PlyExtern` covers extern list, info, select, selected, install and the
    classification of provider result codes.
  - `PlyHelpers` covers `AddParams` and the `BuildParams` folder and target
    selection.
  - The registries (`RepoRegistry`, `ExternFolderRegistry`, `HostTools`), the
    provider callbacks and the instantiator are function parameters.
  - A `fatalError` or `exit` becomes a `Failure` result.
- **web-common's HTTP/1.1 server loop and the WebServer app.**
  - `WebServer` covers the status descriptions (section 6 of RFC 7231) and the
    `ResponseIface` that tracks whether a response was sent.
  - It also covers the reading of the request head and the split of the
    request line (section 3.1.1 of RFC 7230). Header fields are split at the
    first colon, and folded lines are skipped (section 3.2 of RFC 7230).
  - `WebRoutes` covers the path routing of `myRequestHandler` and the argv
    cursor `CommandLine::readToken`.
- `Text` and `Common` hold the shared pieces: string helpers, the column
  padding of the usage text, `Option` and `Result`.

Where the C++ behaves oddly, the model follows the code as written:

- `CommandLine.h:148` stores `args[0].subStr(pos)`, a slice of the program
  name, as an option's value, not the value in the token. `OptionValue` and
  `OptionValueIgnoresToken` state this.
- `CommandLine.h:92` calls the member `parseArgs` from the static `build`.
  The model applies it to the context being built.
- `append` in `CommandLine.h` registers empty short names too. Two flags
  without a short name therefore trip the duplicate assert
  (`RepeatedShortNameTrips`).
- `Context.cpp` inserts short names without a check, so the last option with a
  given short name wins (`ShortNameLastWins`).
- `ArgumentValue::to` converts the raw stored value, so an argument's default
  is ignored (`ToUsesDefaultOnlyForOptions`).
- `Definitions.h:55` instantiates the short-name base with `FlagDefinition` for
  options. Flags and options are both `ShortNamedDefinition` here, so the
  behaviour is the same.
- `Command_Extern.cpp:265-266` adds the install command's `name` argument to
  `info` instead of `install`. That wiring is not modelled (see below).
- `extern_selectHandler` reads `option("install")` (`Command_Extern.cpp:170`),
  although `select` declares `install` as an argument
  (`Command_Extern.cpp:254-255`). `Select` takes the result of that lookup
  as its `shouldInstall` parameter (see below).

## Model

| member | source | states |
|---|---|---|
| Text.MaxWidthOf | repos/plywood/src/cli/ply-cli/Context.cpp:13-19 | the result bounds every item's width, is 0 for no items, and is reached by some item |
| Text.NameRows | repos/plywood/src/cli/ply-cli/Context.cpp:81-113 | each row is two spaces, the name and spaces up to longest name + 2, then the description; the column is reached by some name |
| Text.LabelRows | repos/plywood/src/cli/ply-cli/Context.cpp:128-147 | each row is the label padded with spaces to longest label + 2, then the description |
| Text.Reversed | repos/plywood/src/cli/ply-cli/Cli.h:199 | the result has the same length, with element i taken from position n-1-i |
| CliContext.OptionValue.Value | repos/plywood/src/cli/ply-cli/Context.h:24-26 | the stored value when it is non-empty, otherwise the definition's default; empty exactly when both are |
| CliContext.ArgumentValue.Value | repos/plywood/src/cli/ply-cli/Context.h:54-56 | the same stored-else-default rule for arguments |
| CliContext.NewValuesReadAsDefault | repos/plywood/src/cli/ply-cli/Context.h:17-22 | a fresh option or argument value reads as its default and is not present |
| CliContext.ToUsesDefaultOnlyForOptions | repos/plywood/src/cli/ply-cli/Context.h:28-31 | an option's `to` converts the default when nothing was stored; an argument's `to` converts the empty string although `value` gives the default |
| CliContext.InsertOptionsContents | repos/plywood/src/cli/ply-cli/Context.cpp:216-226 | merging options keys the map by exactly the declared names, each with a fresh value of its definition |
| CliContext.ShortNameLastWins | repos/plywood/src/cli/ply-cli/Context.cpp:223-225 | a short name maps to the last option declared with it, even when earlier ones share it |
| CliContext.ShortNameUntouched | repos/plywood/src/cli/ply-cli/Context.cpp:223-225 | short names that none of the merged options use keep their old entry |
| CliContext.ScanDeclares | repos/plywood/src/cli/ply-cli/Context.cpp:181-184 | scanning argv merges the root and then every matched subcommand, in argv order, and the last one is the last command |
| CliContext.ScanOptionsAreDashTokens | repos/plywood/src/cli/ply-cli/Context.cpp:176-178 | the option list is exactly the argv tokens that start with `-`, in order |
| CliContext.ScanPlainTokens | repos/plywood/src/cli/ply-cli/Context.cpp:179-192 | the non-dash tokens are a chain of matched subcommands followed by positionals, and matching stops at the first non-match |
| CliContext.ParseOptionToken | repos/plywood/src/cli/ply-cli/Context.cpp:241-248 | a token is a short option exactly when its second character is not `-`; without `=` the value is empty |
| CliContext.LongOptionRoundTrip | repos/plywood/src/cli/ply-cli/Context.cpp:241-248 | `--name=value` and `--name` parse back to that name and value, the latter with an empty value |
| CliContext.ShortOptionRoundTrip | repos/plywood/src/cli/ply-cli/Context.cpp:241-248 | `-s=value` and `-s` parse back to that short name and value |
| CliContext.ShortLookupNameNeverEmpty | repos/plywood/src/cli/ply-cli/Context.cpp:241-255 | the name looked up is never empty, because `=` only splits at index 1 or later |
| CliContext.ParseOptionsErrors | repos/plywood/src/cli/ply-cli/Context.cpp:263-266 | the errors after parsing are the old ones plus "Invalid option found" for each unrecognised token, in order |
| CliContext.ParseOptionsUntouched | repos/plywood/src/cli/ply-cli/Context.cpp:263-269 | an option no token names keeps its value and presence |
| CliContext.ParseOptionsLastWins | repos/plywood/src/cli/ply-cli/Context.cpp:263-269 | an option is present with the value of the last token that names it |
| CliContext.BindArgumentsAt | repos/plywood/src/cli/ply-cli/Context.cpp:273-279 | positional i lands in the i-th declared argument when i < min(#positionals, #declared); later arguments stay unchanged and presence is never set |
| CliContext.Context.constructor | repos/plywood/src/cli/ply-cli/Context.cpp:209-211 | the root is merged: the maps hold exactly its options and arguments |
| CliContext.Context.MergeCommand | repos/plywood/src/cli/ply-cli/Context.cpp:213-237 | the command is merged and becomes the last command; the options, short names and arguments are inserted and the maps stay indexed |
| CliContext.Context.MergeOptions | repos/plywood/src/cli/ply-cli/Context.cpp:216-226 | the options are inserted by name and short name, and the index invariant is kept |
| CliContext.Context.MergeArguments | repos/plywood/src/cli/ply-cli/Context.cpp:228-236 | the arguments are inserted by name and appended to the index in declaration order |
| CliContext.Context.SortArguments | repos/plywood/src/cli/ply-cli/Context.cpp:175-193 | the argv loop yields exactly the scan: the option list, the matched commands and the positionals |
| CliContext.Context.PassCommand | repos/plywood/src/cli/ply-cli/Context.cpp:183-184 | a matched subcommand is appended to the passed commands, merged, and becomes the last command |
| CliContext.Context.ParseOptions | repos/plywood/src/cli/ply-cli/Context.cpp:239-271 | the loop over the option tokens yields exactly the option-parsing specification |
| CliContext.Context.ParseArguments | repos/plywood/src/cli/ply-cli/Context.cpp:273-279 | the loop yields exactly the by-index binding over min(#positionals, #declared) |
| CliContext.Context.Start | repos/plywood/src/cli/ply-cli/Context.cpp:169-193 | after the argv loop the commands, options and positionals are those of the scan, and the maps hold the declarations of the merged chain |
| CliContext.Context.ParseAll | repos/plywood/src/cli/ply-cli/Context.cpp:196-198 | options are parsed first, then positionals bound |
| CliContext.Context.Build | repos/plywood/src/cli/ply-cli/Context.cpp:169-207 | the built context is exactly the specification of build for that argv |
| CliContext.Context.Run | repos/plywood/src/cli/ply-cli/Context.cpp:23-32 | usage with exit code 1 exactly when errors were recorded, otherwise dispatch to the last command |
| CliContext.Context.OptionNamed | repos/plywood/src/cli/ply-cli/Context.cpp:151-158 | none exactly when no merged command declares the name; otherwise the entry of that name |
| CliContext.Context.ArgumentNamed | repos/plywood/src/cli/ply-cli/Context.cpp:160-166 | the same for arguments |
| CliContext.OptionLabel | repos/plywood/src/cli/ply-cli/Context.cpp:128-135 | the label starts with `  --name`, and is exactly that when there is no short name |
| CliContext.OptionRows | repos/plywood/src/cli/ply-cli/Context.cpp:118-148 | each option row is its label padded to longest label + 2, then the description |
| CliDefinitions.ShortNamedDefinition.constructor | repos/plywood/src/cli/ply-cli/Definitions.h:31-33 | name and description as given, empty short name |
| CliDefinitions.ShortNamedDefinition.SetShortName | repos/plywood/src/cli/ply-cli/Definitions.h:39-42 | only the short name changes, and the definition itself is returned |
| CliDefinitions.ArgumentDefinition.constructor | repos/plywood/src/cli/ply-cli/Definitions.h:64-66 | name and description as given, not required |
| CliDefinitions.ArgumentDefinition.SetRequired | repos/plywood/src/cli/ply-cli/Definitions.h:72-75 | `required` becomes the argument and nothing else changes |
| CliDefinitions.CommandDefinition.Default | repos/plywood/src/cli/ply-cli/Definitions.h:85-86 | empty name and description, and nothing declared |
| CliDefinitions.CommandDefinition.constructor | repos/plywood/src/cli/ply-cli/Definitions.h:88-89 | name and description as given, and nothing declared |
| CliDefinitions.CommandDefinition.AddFlag | repos/plywood/src/cli/ply-cli/Definitions.cpp:6-8 | a new flag with that name and description is appended, with no deduplication, and returned |
| CliDefinitions.CommandDefinition.AddOption | repos/plywood/src/cli/ply-cli/Definitions.cpp:10-12 | the same for options |
| CliDefinitions.CommandDefinition.AddArgument | repos/plywood/src/cli/ply-cli/Definitions.cpp:14-16 | the same for arguments, not required |
| CliDefinitions.CommandDefinition.AddSubCommand | repos/plywood/src/cli/ply-cli/Definitions.cpp:18-23 | the name must be new; a fresh empty command with exactly that name and description is stored under it |
| CliDefinitions.CommandDefinition.FindCommand | repos/plywood/src/cli/ply-cli/Definitions.cpp:25-32 | null exactly for names never added; otherwise the command stored under it, whose own name is that name |
| CliDefinitions.DeclareAndFind | repos/plywood/src/cli/ply-cli-tests/CommandLineTests.cpp:9-47 | the definitions unit tests: the getters read back what was set, and a subcommand is found by its name |
| CliCommandLine.NewKeysMeans | repos/plywood/src/cli/ply-cli/CommandLine.h:107-108 | a batch of keys passes the duplicate asserts exactly when the keys are distinct and none is already taken |
| CliCommandLine.AppendStep | repos/plywood/src/cli/ply-cli/CommandLine.h:102-138 | appending one more command whose names are new extends the registry by exactly its declarations |
| CliCommandLine.RepeatedShortNameTrips | repos/plywood/src/cli/ply-cli/CommandLine.h:112-115 | two flags along the chain with the same short name, empty included, make an assert fail |
| CliCommandLine.RegisteredIndexesRuns | repos/plywood/src/cli/ply-cli/CommandLine.h:102-138 | every flag, option and argument appended is found under each of its names |
| CliCommandLine.DescendsUnique | repos/plywood/src/cli/ply-cli/CommandLine.h:78-90 | the chain of commands that the argv words reach is unique |
| CliCommandLine.ParseStep | repos/plywood/src/cli/ply-cli/CommandLine.h:140-163 | a token never adds or removes a flag or option key |
| CliCommandLine.StepTouches | repos/plywood/src/cli/ply-cli/CommandLine.h:140-163 | a token changes only the flag or option it names |
| CliCommandLine.FlagPresence | repos/plywood/src/cli/ply-cli/CommandLine.h:152-159 | a known flag is present after parsing exactly when it was present before or some `--name` token names it |
| CliCommandLine.OptionValue | repos/plywood/src/cli/ply-cli/CommandLine.h:142-151 | a known option named by some `--name=` token holds the slice of the program name at the last such token's `=` position |
| CliCommandLine.OptionValueIgnoresToken | repos/plywood/src/cli/ply-cli/CommandLine.h:142-151 | `--k=a` and `--k=b` give the same result: the value in the token is never read |
| CliCommandLine.InsertFlags | repos/plywood/src/cli/ply-cli/CommandLine.h:105-117 | the loop adds each flag under its name and under its short name |
| CliCommandLine.InsertOptions | repos/plywood/src/cli/ply-cli/CommandLine.h:119-131 | the same for options, with an empty value |
| CliCommandLine.InsertArguments | repos/plywood/src/cli/ply-cli/CommandLine.h:133-137 | the loop adds each argument under its name |
| CliCommandLine.Register | repos/plywood/src/cli/ply-cli/CommandLine.h:102-138 | the three loops together give exactly the appended registry |
| CliCommandLine.UnknownOptionSkipped | repos/plywood/src/cli/ply-cli/CommandLine.h:140-151 | a `--name=value` token naming no registered option leaves the parse unchanged, whatever the program name |
| CliCommandLine.ParseTokens | repos/plywood/src/cli/ply-cli/CommandLine.h:140-163 | the loop over argv yields exactly the step-by-step parse |
| CliCommandLine.Descend | repos/plywood/src/cli/ply-cli/CommandLine.h:75-91 | the build loop ends on the last command of the chain, with that chain's declarations registered |
| CliCommandLine.Context.FoundLeafCommand | repos/plywood/src/cli/ply-cli/CommandLine.h:9-11 | true exactly when no name finds a subcommand of the last command |
| CliCommandLine.Context.constructor | repos/plywood/src/cli/ply-cli/CommandLine.h:97-100 | the root is both the root and the last command, and only its declarations are registered |
| CliCommandLine.Context.Build | repos/plywood/src/cli/ply-cli/CommandLine.h:75-95 | the last command ends the chain the argv words reach, and the maps are the chain's registry after parsing argv |
| CliCommandLine.Context.ParseArgs | repos/plywood/src/cli/ply-cli/CommandLine.h:140-163 | the maps become the parse of argv over the old maps |
| CliCommandLine.Context.AppendCommand | repos/plywood/src/cli/ply-cli/CommandLine.h:102-138 | the command becomes the last one and the registry is extended by its declarations |
| CliCommandLine.FindRootCommand | repos/plywood/src/cli/ply-cli-tests/CommandLineTests.cpp:52-55 | `{"tool"}` on a root without subcommands reaches a leaf |
| CliCommandLine.FindSubCommand | repos/plywood/src/cli/ply-cli-tests/CommandLineTests.cpp:57-61 | `{"tool", "subCommand"}` reaches a leaf |
| CliCommandLine.InvalidSubCommand | repos/plywood/src/cli/ply-cli-tests/CommandLineTests.cpp:63-67 | `{"tool", "invalid"}` stays on the root, which is not a leaf |
| CliTree.Command.constructor | repos/plywood/src/cli/ply-cli/Cli.h:88-89 | name and description as given, with no parent and no children |
| CliTree.Command.FindCommand | repos/plywood/src/cli/ply-cli/Cli.h:91-98 | null exactly when no child has that key; otherwise the child, whose name is the key |
| CliTree.Command.AddCommand | repos/plywood/src/cli/ply-cli/Cli.h:100-104 | a fresh child whose parent is the receiver is stored under its name and found by it |
| CliTree.Command.AddFlag | repos/plywood/src/cli/ply-cli/Cli.h:106-108 | the name must be new; a flag with empty short name and default is stored under it |
| CliTree.Command.AddArgument | repos/plywood/src/cli/ply-cli/Cli.h:110-112 | the name must be new; the argument is stored under it |
| CliTree.Command.SetFlagShortName | repos/plywood/src/cli/ply-cli/Cli.h:57-60 | only that flag's short name changes |
| CliTree.Command.SetFlagDefaultValue | repos/plywood/src/cli/ply-cli/Cli.h:66-69 | only that flag's default value changes |
| CliTree.NextCommand | repos/plywood/src/cli/ply-cli/Cli.h:150-162 | one turn of the build loop: a match is the next command of the chain, and a miss stops the loop |
| CliTree.Context.Merge | repos/plywood/src/cli/ply-cli/Cli.h:280-294 | the command becomes the leaf; its flags are added by name, and by short name only where the short name is non-empty |
| CliTree.Context.Build | repos/plywood/src/cli/ply-cli/Cli.h:144-166 | the leaf ends the chain the argv words reach, and every flag along the chain is registered under its names |
| CliTree.Context.UsageWords | repos/plywood/src/cli/ply-cli/Cli.h:175-202 | the walk up the parent chain ends at the root, and the words are the path names from root to leaf, root excluded |
| CliTree.UsageWordsOfPath | repos/plywood/src/cli/ply-cli/Cli.h:195-202 | for a command reached by `addCommand` links, the usage words are exactly the argv words of its path |
| CliTree.ParentChainOfPath | repos/plywood/src/cli/ply-cli/Cli.h:176-178 | the reversed path is a parent chain, so the walk from the leaf reaches the root |
| CliTree.Context.CommandRows | repos/plywood/src/cli/ply-cli/Cli.h:214-229 | each row is two spaces and the name padded to the longest name + 2, then the description |
| CliTree.FlagLabel | repos/plywood/src/cli/ply-cli/Cli.h:240-243 | the label starts with `  --name` and has `, -short` exactly when the short name is non-empty |
| CliTree.Context.FlagRows | repos/plywood/src/cli/ply-cli/Cli.h:232-257 | each flag row is its label padded to the longest label + 2, then the description |
| PlyFolder.FolderIndex | repos/plywood/src/apps/plytool/plytool/Command_Folder.cpp:37-38 | the first folder with that name, or -1 when there is none |
| PlyFolder.NewToolchain | repos/plywood/src/apps/plytool/plytool/Command_Folder.cpp:44-47 | the workspace default when its generator is set, otherwise the native toolchain |
| PlyFolder.NewConfig | repos/plywood/src/apps/plytool/plytool/Command_Folder.cpp:48-51 | the workspace default config when set, otherwise the native one |
| PlyFolder.ApplyDefaults | repos/plywood/src/apps/plytool/plytool/Command_Folder.cpp:44-51 | the new folder's toolchain and config take those defaults |
| PlyFolder.ListFolders | repos/plywood/src/apps/plytool/plytool/Command_Folder.cpp:14-26 | a heading then one line per folder, marked exactly when its name is the current folder |
| PlyFolder.ListMarksCurrent | repos/plywood/src/apps/plytool/plytool/Command_Folder.cpp:19-23 | with distinct names at most one folder is marked, and it is the current one |
| PlyFolder.CreateFolder | repos/plywood/src/apps/plytool/plytool/Command_Folder.cpp:28-61 | an existing name is an error and changes nothing; otherwise a fresh folder is created with the defaults, holding no targets, and its name becomes current |
| PlyFolder.DeleteFolder | repos/plywood/src/apps/plytool/plytool/Command_Folder.cpp:63-84 | an unknown name or a failed removal is an error; success exactly when the folder exists and was removed |
| PlyFolder.SetFolder | repos/plywood/src/apps/plytool/plytool/Command_Folder.cpp:86-102 | an unknown name is an error and leaves the workspace unchanged; otherwise the name becomes current |
| PlyHelpers.AddTargetEffect | repos/plywood/src/apps/plytool/plytool/CommandHelpers.cpp:24-35 | the target is appended to the roots only if absent, to the shared list only when sharing and absent, and becomes the active target |
| PlyHelpers.AddTargetIdempotent | repos/plywood/src/apps/plytool/plytool/CommandHelpers.cpp:23-36 | adding the same target twice is the same as adding it once |
| PlyHelpers.AddParams.ExtractOptions | repos/plywood/src/apps/plytool/plytool/CommandHelpers.cpp:15-20 | `makeShared` takes the `shared` flag's presence when the option is declared |
| PlyHelpers.AddParams.Exec | repos/plywood/src/apps/plytool/plytool/CommandHelpers.cpp:22-37 | the folder's targets become the add of the target; the result is true exactly when something changed |
| PlyHelpers.Matching | repos/plywood/src/apps/plytool/plytool/CommandHelpers.cpp:92-101 | exactly the folders with some root resolving to the target, each at most once |
| PlyHelpers.MatchFolders | repos/plywood/src/apps/plytool/plytool/CommandHelpers.cpp:91-101 | the nested loops yield exactly the matching folders |
| PlyHelpers.QuotedList | repos/plywood/src/apps/plytool/plytool/CommandHelpers.cpp:139-150 | empty for no names; starts with the first quoted name; ends with " and " and the last quoted name when there are two or more |
| PlyHelpers.QuotedListStep | repos/plywood/src/apps/plytool/plytool/CommandHelpers.cpp:142-149 | each name is followed by ", " except " and " before the last |
| PlyHelpers.JoinFolderNames | repos/plywood/src/apps/plytool/plytool/CommandHelpers.cpp:142-149 | the loop yields exactly the quoted list |
| PlyHelpers.BuildSteps | repos/plywood/src/apps/plytool/plytool/CommandHelpers.cpp:214-221 | without building nothing runs; generation runs first only when the config is not generated; success exactly when every step run succeeds |
| PlyHelpers.RunSteps | repos/plywood/src/apps/plytool/plytool/CommandHelpers.cpp:214-221 | the steps run and the outcome are those of the specification |
| PlyHelpers.BuildParams.ExtractOptions | repos/plywood/src/apps/plytool/plytool/CommandHelpers.cpp:49-73 | config, add, auto and target come from the context, and `shared` only when add or auto is set |
| PlyHelpers.BuildParams.AutoCreate | repos/plywood/src/apps/plytool/plytool/CommandHelpers.cpp:104-129 | a fresh folder named after the target, with the target added and the defaults applied, becomes current |
| PlyHelpers.AutoChoiceCases | repos/plywood/src/apps/plytool/plytool/CommandHelpers.cpp:103-151 | with `--auto`, no folder holding the target means one is created with the defaults and the target added, one folder means that one, and several are a fatal error naming them all |
| PlyHelpers.AutoChoiceMeans | repos/plywood/src/apps/plytool/plytool/CommandHelpers.cpp:90-137 | a folder taken is the only one with a root resolving to the target; a folder is created only when none has one, and it holds the target as its root and active target |
| PlyHelpers.FolderChoiceMeans | repos/plywood/src/apps/plytool/plytool/CommandHelpers.cpp:78-156 | without `--auto` the current folder is taken; with it the choice means what the `--auto` choice means, and a missing or unknown target name takes and creates nothing |
| PlyHelpers.BuildParams.AutoFolder | repos/plywood/src/apps/plytool/plytool/CommandHelpers.cpp:91-151 | the `--auto` choice is carried out: the folder found becomes current, or the created folder is appended with those settings and becomes current, or the error is returned and the folder list is unchanged |
| PlyHelpers.BuildParams.ChooseFolder | repos/plywood/src/apps/plytool/plytool/CommandHelpers.cpp:78-156 | the folder choice is carried out: without `--auto` the current folder or "Current build folder not set" with nothing changed; with `--auto` a missing target name is fatal, an unknown target exits, and otherwise the `--auto` choice holds |
| PlyHelpers.ResolutionCases | repos/plywood/src/apps/plytool/plytool/CommandHelpers.cpp:160-208 | instantiation failing is fatal, then an unknown target exits; a target in the instantiation resolves there; one missing from it is fatal without `--add`, and with `--add` is added and resolved after re-instantiating, which is fatal when it fails; the result is Ok exactly when the resolved target is executable, and its value is the folder, the dependencies, the target and its build target; a non-executable target is fatal naming it |
| PlyHelpers.ResolveAgain | repos/plywood/src/apps/plytool/plytool/CommandHelpers.cpp:178-194 | after a successful `--add` resolution, resolving again adds nothing and gives the same result, with or without `--add` |
| PlyHelpers.ExecOutcomeCases | repos/plywood/src/apps/plytool/plytool/CommandHelpers.cpp:160-224 | `exec` in a folder succeeds exactly when the resolution does, and then builds the resolved target in the given config, or the folder's active one, by the step specification |
| PlyHelpers.BuildParams.ResolveTarget | repos/plywood/src/apps/plytool/plytool/CommandHelpers.cpp:160-208 | the result is the resolution of the target in the folder's settings before the call, and the folder's new settings are those before with the target added when it was missing from the instantiation and `--add` was given, and unchanged otherwise |
| PlyHelpers.BuildParams.ExecIn | repos/plywood/src/apps/plytool/plytool/CommandHelpers.cpp:160-224 | the result is the `exec` outcome in the folder's settings before the call; the target and config names are filled in from the folder's active ones |
| PlyHelpers.BuildParams.Exec | repos/plywood/src/apps/plytool/plytool/CommandHelpers.cpp:75-224 | when the folder choice fails its error is the result, and the folder list and current folder are unchanged; when it takes an existing folder the list is unchanged, the result is the `exec` outcome on that folder's settings before the call, its settings become the resolved ones, and with `--auto` its name becomes current; when it creates a folder that fresh folder is appended, its settings become the resolved ones of the created settings, its name becomes current and the result is the `exec` outcome on it; in every case every other folder keeps its settings |
| PlyTarget.DumpFits | repos/plywood/src/apps/plytool/plytool/Command_Target.cpp:22-36 | one line per node in pre-order, the node's own prefix first; each deeper level adds exactly four gutter characters |
| PlyTarget.ChildrenFit | repos/plywood/src/apps/plytool/plytool/Command_Target.cpp:25-34 | children's lines start with the parent's continuation prefix and are 4 characters deeper per level |
| PlyTarget.GraphAligned | repos/plywood/src/apps/plytool/plytool/Command_Target.cpp:180-185 | every graph line starts with four spaces and has a prefix of 4 characters per level |
| PlyTarget.Graph | repos/plywood/src/apps/plytool/plytool/Command_Target.cpp:167-188 | no current folder is an error; otherwise the lines of the dependency tree |
| PlyTarget.TargetLine | repos/plywood/src/apps/plytool/plytool/Command_Target.cpp:49-61 | "(not found)" for an unresolved name, " (active)" exactly for the active target |
| PlyTarget.List | repos/plywood/src/apps/plytool/plytool/Command_Target.cpp:38-65 | no current folder is an error; otherwise one target line per root target |
| PlyTarget.Add | repos/plywood/src/apps/plytool/plytool/Command_Target.cpp:67-94 | no current folder or an unknown target is fatal and changes nothing; otherwise the folder's settings become those with the target added, and nothing else about it changes |
| PlyTarget.IndexOf | repos/plywood/src/apps/plytool/plytool/Command_Target.cpp:112 | the first index of the element, or -1 exactly when it is absent |
| PlyTarget.EraseFirst | repos/plywood/src/apps/plytool/plytool/Command_Target.cpp:112-118 | erasing at the found index removes the first occurrence, the rest kept in order |
| PlyTarget.RemoveFirstCount | repos/plywood/src/apps/plytool/plytool/Command_Target.cpp:112-118 | the removal takes exactly one copy of the target away |
| PlyTarget.RemoveUndoesAdd | repos/plywood/src/apps/plytool/plytool/Command_Target.cpp:96-125 | removing a target just appended gives back the old roots |
| PlyTarget.Remove | repos/plywood/src/apps/plytool/plytool/Command_Target.cpp:96-125 | an unknown or absent target is an error and changes nothing; otherwise exactly its entry is erased |
| PlyTarget.Set | repos/plywood/src/apps/plytool/plytool/Command_Target.cpp:127-165 | the active target changes only when the target is in the instantiation's dependency map; otherwise an error |
| PlyExtern.DetailSuffix | repos/plywood/src/apps/plytool/plytool/Command_Extern.cpp:29-32 | empty exactly when there are no details, otherwise the details in parentheses |
| PlyExtern.InstallOutcome | repos/plywood/src/apps/plytool/plytool/Command_Extern.cpp:33-64 | success exactly for `Installed`; each failure code its own fatal message; any other code an internal error |
| PlyExtern.InstallMessagesDistinct | repos/plywood/src/apps/plytool/plytool/Command_Extern.cpp:33-64 | different codes give different outcomes |
| PlyExtern.InstallProvider | repos/plywood/src/apps/plytool/plytool/Command_Extern.cpp:15-65 | the outcome of the provider's install callback on the folder's CMake options |
| PlyExtern.ListHeader | repos/plywood/src/apps/plytool/plytool/Command_Extern.cpp:84-86 | the count in decimal, then "extern", plus "s" exactly when the count is not 1, ending in "." for 0 and ":" otherwise |
| PlyExtern.ListLinesCount | repos/plywood/src/apps/plytool/plytool/Command_Extern.cpp:77-91 | one line per repo plus one per extern |
| PlyExtern.List | repos/plywood/src/apps/plytool/plytool/Command_Extern.cpp:72-93 | no current folder is an error; otherwise the list lines |
| PlyExtern.StatusText | repos/plywood/src/apps/plytool/plytool/Command_Extern.cpp:133-154 | each status string exactly for its codes, "???" for the rest |
| PlyExtern.ProvidersOfMembers | repos/plywood/src/apps/plytool/plytool/Command_Extern.cpp:114-127 | exactly the providers of the repos whose extern is the requested one |
| PlyExtern.Candidates | repos/plywood/src/apps/plytool/plytool/Command_Extern.cpp:114-127 | one candidate per such provider, in repo-then-provider order, with its status |
| PlyExtern.InfoLines | repos/plywood/src/apps/plytool/plytool/Command_Extern.cpp:128-156 | a heading then one line per candidate |
| PlyExtern.Info | repos/plywood/src/apps/plytool/plytool/Command_Extern.cpp:95-159 | no current folder or an unknown extern is an error; otherwise the info lines |
| PlyExtern.KeepOthers | repos/plywood/src/apps/plytool/plytool/Command_Extern.cpp:183-191 | no kept selector selects the extern, and none grows the list |
| PlyExtern.KeepOthersMembers | repos/plywood/src/apps/plytool/plytool/Command_Extern.cpp:184-190 | exactly the selectors that do not select the extern are kept |
| PlyExtern.KeepOthersAppend | repos/plywood/src/apps/plytool/plytool/Command_Extern.cpp:184-190 | the filter keeps relative order |
| PlyExtern.SelectExclusive | repos/plywood/src/apps/plytool/plytool/Command_Extern.cpp:182-193 | after select, exactly one selector, the last, selects the chosen provider's extern |
| PlyExtern.RemoveSelectors | repos/plywood/src/apps/plytool/plytool/Command_Extern.cpp:183-191 | the erase loop, which advances only when it keeps, leaves exactly the filtered selectors |
| PlyExtern.Select | repos/plywood/src/apps/plytool/plytool/Command_Extern.cpp:161-201 | no current folder or an unknown provider is an error; otherwise the selectors are the filtered list plus the provider |
| PlyExtern.Selected | repos/plywood/src/apps/plytool/plytool/Command_Extern.cpp:203-219 | no current folder is an error; otherwise the folder's selectors are listed |
| PlyExtern.InstallCommand | repos/plywood/src/apps/plytool/plytool/Command_Extern.cpp:221-241 | no current folder or an unknown provider is an error; otherwise the install outcome |
| WebServer.Description | repos/plywood/src/web/common/web-common/Server.cpp:18-30 | a three-digit code whose first digit is 2 exactly for OK, 4 for BadRequest or NotFound, and 5 for every other code |
| WebServer.DescriptionInjective | repos/plywood/src/web/common/web-common/Server.cpp:18-30 | different response codes give different status codes |
| WebServer.Responder.RespondWithStream | repos/plywood/src/web/common/web-common/Server.cpp:38-45 | the status line is written and `gotResponse` set |
| WebServer.Responder.RespondGeneric | repos/plywood/src/web/common/web-common/Server.cpp:53-67 | the status line and the generic page are written |
| WebServer.Responder.HandleMissingResponse | repos/plywood/src/web/common/web-common/Server.cpp:46-50 | a 500 page is written exactly when no response was sent, so at most once |
| WebServer.ReadHead | repos/plywood/src/web/common/web-common/Server.cpp:81-92 | for lines as read, each keeping its line end: end of stream exactly when no blank line arrives; otherwise the lines before the first blank line |
| WebServer.ParseField | repos/plywood/src/web/common/web-common/Server.cpp:109-118 | none exactly when there is no colon; the name has no colon or trailing white space and the value is trimmed |
| WebServer.ParseFieldsDefined | repos/plywood/src/web/common/web-common/Server.cpp:107-119 | the fields parse exactly when every line is folded or has a colon |
| WebServer.FieldAtColon | repos/plywood/src/web/common/web-common/Server.cpp:117-118 | the split is at the first colon, the name right-trimmed and the value trimmed |
| WebServer.FieldRoundTrip | repos/plywood/src/web/common/web-common/Server.cpp:117-118 | `name: value\r\n` parses back to the name and value |
| WebServer.SplitFields | repos/plywood/src/web/common/web-common/Server.cpp:107-119 | the loop yields exactly the field parse of the lines after the request line |
| WebServer.RequestLineRoundTrip | repos/plywood/src/web/common/web-common/Server.cpp:98-104 | a request line built from three tokens splits back into them |
| WebServer.Serve | repos/plywood/src/web/common/web-common/Server.cpp:69-127 | end of stream answers 400; an empty head answers nothing; a malformed head answers 400; otherwise the handler gets the target, and a 500 follows when it does not answer |
| WebRoutes.TrimSlashes | repos/plywood/src/apps/WebServer/WebServer.cpp:27 | the input without its trailing `/` characters |
| WebRoutes.StaticRoute | repos/plywood/src/apps/WebServer/WebServer.cpp:23-24 | `/static/` paths go to the file system whole |
| WebRoutes.SourceRoute | repos/plywood/src/apps/WebServer/WebServer.cpp:25-26 | `/file/` paths go to the source code with 6 characters stripped |
| WebRoutes.EchoRoute | repos/plywood/src/apps/WebServer/WebServer.cpp:27-28 | echo exactly for `/echo` followed by any number of slashes |
| WebRoutes.DocsRoute | repos/plywood/src/apps/WebServer/WebServer.cpp:29-30 | `/docs/` paths go to the docs with 6 characters stripped |
| WebRoutes.RootRoute | repos/plywood/src/apps/WebServer/WebServer.cpp:31-32 | `/` goes to the docs with an empty path |
| WebRoutes.Answer | repos/plywood/src/apps/WebServer/WebServer.cpp:22-36 | an unknown path answers 404; any other path the handler of its route |
| WebRoutes.UnknownAnswered | repos/plywood/src/apps/WebServer/WebServer.cpp:33-35 | an unrouted path gets a 404 status |
| WebRoutes.CommandLine.constructor | repos/plywood/src/apps/WebServer/WebServer.cpp:50-54 | the cursor starts at 1, past the program name |
| WebRoutes.CommandLine.ReadToken | repos/plywood/src/apps/WebServer/WebServer.cpp:56-60 | once the arguments run out, empty and the cursor unchanged; otherwise the argument at the cursor, which then advances |

## Left out

- `printUsage` text in `Context.cpp:34-75` and `Cli.h:179-193`, which is the header and usage line written to a `StringWriter`. Only the aligned rows, the command path and the `run` gate are modelled.
- Stream reading and `StringWriter` output are left out. Lines are sequences of strings, and a response is the list of strings written.
- `Queue`, `ThreadPool`, `runServer` and the sockets in `Server.cpp:129-229` are left out. They are thread hand-off and I/O.
- The client address and port in `Server.cpp:75-76` are left out. They are only read from the socket.
- The handlers of `WebServer.cpp` (file system, source code, echo, docs) are a function parameter. `webServerMain` and `main` are left out: they do socket setup, environment reads and a `u16` port conversion.
- The `PORT` variable at `WebServer.cpp:71-77` is parsed but never assigned. This quirk is not modelled, since `webServerMain` is left out.
- `save()`, `removeDirTree` and `getAbsPath` are file-system work. Folder delete takes whether the removal succeeded as a `removed` parameter.
- `RepoRegistry`, `ExternFolderRegistry`, `HostTools`, `instantiateAllTargets`, `buildDepTree`, `generateLoop` and `build` are function parameters, because their source is not part of this model.
- The `HashMap` iteration order is not specified by the code. It is an explicit `order` parameter wherever the code iterates a map.
- `Context::build` in `Context.cpp:200-204` has a no-op loop over left-over tokens, which is not modelled.
- The "Checking argument" print in `Cli.h:154` is output only and is not modelled.
- `run` in `Context.cpp:27` checks `!m_lastCommand`. In the model the last command is never null.
- `BuildParams::addCommandLineOptions` and the `buildCommand_*` functions build `cli::Command` trees through an API that is not part of this model. This includes the install command's `name` argument that `Command_Extern.cpp:265-266` adds to `info`.
- The `option("install")` lookup of `extern_selectHandler` (`Command_Extern.cpp:170`) is not modelled. `install` is declared as an argument of `select`, not an option. `Select` takes the lookup's result as its `shouldInstall` parameter.
- The command handlers' dispatch through `run` is not modelled. Each handler is its own method.
- `DetailsBase::name`/`description` setters in `Cli.h:27-39` and the `CommandLine::parse` wrappers in `Cli.h:306-316` are left out. They only forward.
- The default constructors of `Context.h`, which hold a null definition, are left out.
- Tokens that `Context.cpp:177` and `Context.cpp:241` index at `[0]` or `[1]` are undefined behaviour when they are too short. `ArgvTokens` makes them preconditions.
- For a `--name=value` token naming a registered option, `CommandLine.h:148` slices the program name at the position of the `=`, which is out of range when that position passes the program name's end. `FitsProgram` makes this a precondition for registered options only. A token naming no registered option is skipped and needs nothing (`UnknownOptionSkipped`).
- CliCommandLine.OptionValue: states the stored slice only where it fits in the program name, because a longer slice is undefined behaviour in the source.
- `StringView::splitByte` and `isWhite` are not part of this model. `SplitByte` assumes that runs of separators yield no empty pieces, and `IsWhite` assumes space, tab, CR and LF. `Serve`'s three-token test of the request line depends on the first: `GET  /x HTTP/1.1`, with two spaces, has three tokens here.
