# LuaProfile core, modelled in Dafny

LuaProfile is a small C++ host for Lua scripts. This project models five parts of it:

- **The LuaVM wrapper.** It creates a Lua state, points the module search paths at a workspace directory, resolves an entry reference `"<module>::<function>"` to a file and a definition in that file, and then runs it.
- **The call-stack bookkeeping** of its profiler.
- **The command-line parser and dispatcher.**
- **The prefix-accumulating `Logger`.**
- **The path helpers.**

The Lua engine and the filesystem are replaced by abstract inputs:

- **The filesystem** is a `Fs.FileSystem` value. It records:
  - the kind of each path;
  - what reading each file yields;
  - the entries of each recursive directory walk, in order, and whether the walk throws after them.
- **The Lua state** is a "context present" flag. The `package` table becomes an optional record of `path` and `cpath` strings, plus flags for the `loadmodule` helper and the debug hook.
- **Engine outcomes** are parameters of the operations that call into Lua:
  - creating the state;
  - running the loader chunk;
  - loading the entry file;
  - running it;
  - calling the entry function.

The model has one module per component:

| module | file | models |
|---|---|---|
| `Common` | common.dfy | Option/Result, thrown C++ exceptions, string helpers |
| `Fs` | fs.dfy | the abstract filesystem and POSIX path composition (`/`, `parent_path`, `filename`, `stem`) |
| `Tools` | tools.dfy | `CheckPath`, `GetLuaWorkpace`, `GetLuaCodePath`, `GetPathPreix` |
| `LuaEntry` | lua_entry.dfy | `GetLuaEntry`, with `find_first_of` truncated into a `uint32_t` and `substr` throwing |
| `DefinitionScanner` | definition_scanner.dfy | the five definition patterns of `CheckLuaFunction` |
| `ModuleLocator` | module_locator.dfy | `FindLuaModule`: the two probes, then the first-match walk |
| `PackagePaths` | package_paths.dfy | the `package.path` / `package.cpath` strings, and their `;`-separated pieces |
| `Profiler` | profiler.dfy | `LuaProfileReportor` and its call stack |
| `LuaSession` | lua_vm.dfy | `LuaResult`, and `LuaVM` with its `Init*` steps, `__Check`, `__PushLog` and `Run` |
| `Commands` | command_parser.dfy | `CheckCommandNum`, `ParseCommand`, `CommandParser`, `entry` |
| `Logging` | logger.dfy | `Logger`: constructor, destructor, `Log` |

Where the source changes state, the model does too:

- `LuaProfileReportor`, `LuaVM` and `Logger` are classes whose methods update their fields.
- `__PushLog`, `FindLuaModule` and `ParseCommand` keep their loops.

Each method is proved equal to a pure step function on a state value:

- `Profiler.ProfileStep`;
- `LuaSession.ContextStep`, `WorkSpaceStep`, `EntryStep` and `RunStep`;
- `Logging.Opened`, `LogStep` and `Closed`;
- `Commands.Collected` and `Mapped`;
- `ModuleLocator.LocateModule`.

The lemmas about whole sessions and traces are stated on those step functions.

## Behaviour as written

The model follows the code as written, also where the code departs from what its own comments, messages and names describe. The constructor's comment (Source/LuaVM.hpp:221-226) and the format-error message of `InitEntryFunction` both describe the entry reference as `"<module>::<function>"`; the code parses any string, as the first item below shows.

- **`GetLuaEntry` splits at the first `:`.** The search is `find_first_of("::")`, which finds any `:` character. The `size_t` position is stored in a `uint32_t`.
  - With no `:`, the index is 2^32 − 1 and `index + 2` wraps to 1. `"main"` therefore becomes module `"main"`, function `"ain"`.
  - A first `:` that is the last character makes `substr` throw `std::out_of_range` (`"a:"` throws; `"a::"` does not, and gives function `""`). Nothing catches it, so the exception leaves `InitEntryFunction` and the `LuaVM` constructor.
  - A single `:` loses the character that follows it.
- **The constructor runs `InitLuaVMContext`, `InitWorkSpace` and `InitEntryFunction` unconditionally.** Each step checks its own preconditions and the results are discarded.
- **`package.cpath` gains one template, not three.** Only the first `;` is written, so the three pieces run together.
- **The search paths are appended to, not replaced.** `InitWorkSpace` extends whatever `package.path` and `package.cpath` already hold. It is private and the constructor calls it once, on a fresh state, so no run of the program initialises twice; `PackagePaths.PackagePathTwice` states what the concatenation would give if it did (the five templates twice).
- **`Run` never reports success.** Its success path returns a default `LuaResult` with `bSuccess == false` and an empty message.
  - It removes the hook only on that path.
  - It calls the global named by its own `funcname` argument, not the recorded entry function.
- **`__PushLog` adds no tab with the default tab count.** Every call passes `tabnum == 1`, so child entries are not indented.
- **`CheckLuaFunction` has one pattern for every other.** A local-function definition also matches the global-function pattern. A table-field definition and a definition inside a returned table also match the variable-assignment pattern. For a non-empty name that starts with a word character, two patterns therefore decide the result. Every other name is an exception, since the variable-assignment pattern puts `\b` right before the name. The empty name (from `"m::"`) matches `t.=function(` only by the table-field pattern, and so does `-x` (from `"m::-x"`) in `t.-x=function(`.
- **`Logger::Log` appends each message to `commonPrefix` permanently.** Every line repeats all earlier messages.
- **`CommandParser` always throws for `--help`, `--version` and `--list`.** They check for a token count of 0, but the count includes the program name and the command.
- **`ParseCommand` does not advance past a `-` token with no value.** Its outer loop then never ends.
- **`ParseCommand` counts the last value of each key twice.** That value is also appended to the command's own arguments.

## Model

| member | source | states |
|---|---|---|
| Tools.CheckPath | Source/Tools.hpp:129-137 | true exactly when the path names a directory, which then exists |
| Tools.GetLuaWorkpace | Source/Tools.hpp:89-110 | `cur/Lua` when that is a directory, else `parent(cur)/Lua` when that is one, else none; a result always passes CheckPath |
| Tools.GetLuaCodePath | Source/Tools.hpp:111-120 | `ws/name.lua` exactly when a workspace is found and that path exists (of any kind), else none |
| Tools.GetPathPreix | Source/Tools.hpp:122-127 | none stays none; a path becomes its parent |
| Tools.WorkspacePrefixIsSearchRoot | Source/Tools.hpp:89-127 | the prefix of the found workspace is the current directory or its parent; it is the current directory whenever `cur/Lua` is a directory |
| Tools.CodePathStem | Source/Tools.hpp:111-120 | the file GetLuaCodePath returns has the module name as its stem |
| LuaEntry.Substr | Source/LuaVM.hpp:98-99 | `substr` throws out_of_range exactly when the start is past the end; otherwise it yields the clamped slice |
| LuaEntry.SeparatorIndex | Source/LuaVM.hpp:97 | below 2^32; 2^32 − 1 when there is no `:`; when there is one and the input is shorter than 2^32, the position of the first `:`, with no `:` before it |
| LuaEntry.GetLuaEntry | Source/LuaVM.hpp:93-101 | `""` gives an empty module and function; a returned module is a prefix of the input |
| LuaEntry.EntryAtIndex | Source/LuaVM.hpp:97-100 | with separator index k and k + 2 within the input, the entry is `input[..k]`, `input[k+2..]` |
| LuaEntry.EntryAtDoubleColon | Source/LuaVM.hpp:97-100 | when the first `:` begins `::`: the module has no `:`, and module + `"::"` + function is the input |
| LuaEntry.EntryWithoutColon | Source/LuaVM.hpp:97-100 | with no `:`, the module is the whole input and the function is the input without its first character |
| LuaEntry.EntryTrailingColonThrows | Source/LuaVM.hpp:97-99 | a first `:` that is the last character makes GetLuaEntry throw out_of_range |
| LuaEntry.SingleColonDropsACharacter | Source/LuaVM.hpp:97-100 | a lone `:` loses the character after it: module + `":"` + that character + function is the input |
| LuaEntry.MainMainSeparator | Source/LuaVM.hpp:97 | the separator of `"main::main"` is at 4 |
| LuaEntry.ExampleMainMain | Source/LuaVM.hpp:93-101 | `"main::main"` gives module `"main"`, function `"main"` |
| LuaEntry.ExampleNoSeparator | Source/LuaVM.hpp:93-101 | `"main"` gives module `"main"`, function `"ain"` |
| LuaEntry.ExampleTrailingColon | Source/LuaVM.hpp:93-101 | `"a:"` throws out_of_range |
| DefinitionScanner.CheckLuaFunction | Source/LuaVM.hpp:104-149 | true exactly when the path is non-empty, exists, reads as text, and the text matches one of the five patterns |
| DefinitionScanner.LocalImpliesGlobal | Source/LuaVM.hpp:120-122 | every `local function NAME(` match is also a `function NAME(` match |
| DefinitionScanner.TableImpliesVar | Source/LuaVM.hpp:124-126 | for a name starting with a word character, every `t.NAME = function(` match is also a `\bNAME = function(` match |
| DefinitionScanner.ReturnTableImpliesVar | Source/LuaVM.hpp:126-128 | every `return { ... NAME = function(` match is also a `\bNAME = function(` match |
| DefinitionScanner.TwoPatternsSuffice | Source/LuaVM.hpp:120-135 | for a non-empty name starting with a word character, the five-way test equals the global-function test or the assignment test |
| DefinitionScanner.DefinitionMentionsName | Source/LuaVM.hpp:120-135 | any accepted text contains the name literally |
| DefinitionScanner.ExampleGlobalDefinition | Source/LuaVM.hpp:120 | `function foo(x) return 42 end` defines `foo` |
| DefinitionScanner.EmptyNameMatchesAnonymousFunction | Source/LuaVM.hpp:120 | with an empty name, any anonymous `function (` matches |
| ModuleLocator.Normalize | Source/LuaVM.hpp:165-166 | same length; each `.` becomes `/`, every other character is unchanged, so no `.` is left |
| ModuleLocator.Basename | Source/LuaVM.hpp:187-190 | the `/`-free suffix that starts right after the last `/`; the whole name when it has no `/` |
| ModuleLocator.FirstStemMatch | Source/LuaVM.hpp:182-195 | the index of the first regular file whose stem is the basename, with none before it, or the walk's length |
| ModuleLocator.LocateModule | Source/LuaVM.hpp:156-204 | a non-empty result is a regular file, and the workspace passed CheckPath |
| ModuleLocator.WalkResult | Source/LuaVM.hpp:181-203 | a non-empty result is an entry of the walk whose stem is the basename |
| ModuleLocator.FindLuaModule | Source/LuaVM.hpp:156-204 | the loops return LocateModule's path: empty for an invalid workspace, and a non-empty result is a regular file (empty means not found) |
| ModuleLocator.SearchWalk | Source/LuaVM.hpp:181-196 | the traversal loop returns the first matching entry, or empty |
| ModuleLocator.FirstStemMatchIs | Source/LuaVM.hpp:182-195 | an index with a match and no earlier match is FirstStemMatch |
| ModuleLocator.FirstProbeWins | Source/LuaVM.hpp:168-179 | when `ws/norm.lua` is a regular file it is returned, whatever follows |
| ModuleLocator.SecondProbeWins | Source/LuaVM.hpp:168-179 | when `ws/norm.lua` is not a regular file and `ws/norm` is, `ws/norm` is returned, whatever the walk holds |
| ModuleLocator.FallbackIsFirstMatch | Source/LuaVM.hpp:173-196 | when neither probe is a regular file, the first matching walk entry is returned |
| ModuleLocator.NotFoundIsEmpty | Source/LuaVM.hpp:160-203 | empty exactly when the workspace is invalid, or neither probe is a regular file and no entry matches |
| ModuleLocator.WalkResultEmpty | Source/LuaVM.hpp:181-203 | the walk yields empty exactly when no entry matches, including a walk that throws |
| ModuleLocator.NestedNameMatchesByLastComponent | Source/LuaVM.hpp:165-190 | a module name nested by `.` or `/` is matched by its last component |
| PackagePaths.PackagePath | Source/LuaVM.hpp:349-354 | the new `package.path` starts with the old one and `;` |
| PackagePaths.CPath | Source/LuaVM.hpp:367-370 | the new `package.cpath` starts with the old one and `;` |
| PackagePaths.RootOf | Source/LuaVM.hpp:344-345 | a missing value reads as `""` |
| PackagePaths.PackagePathIsJoin | Source/LuaVM.hpp:349-354 | the new path is the old path, `;`, then the five workspace templates joined by `;` |
| PackagePaths.PackagePathTemplates | Source/LuaVM.hpp:343-359 | split at `;`, the new path is the old pieces followed by `ws/?.lua`, `ws/?`, `ws/?/?.lua`, `ws/?/?`, `ws/?.luac`, in that order |
| PackagePaths.CPathTemplates | Source/LuaVM.hpp:362-375 | split at `;`, the new cpath adds a single piece, made of the three templates run together |
| PackagePaths.PackagePathTwice | Source/LuaVM.hpp:343-359 | initialising twice with one workspace lists its five templates twice |
| PackagePaths.EmptyRootLeadsWithEmptyTemplate | Source/LuaVM.hpp:343-354 | with no old path, the first `;`-separated piece is empty |
| Profiler.HookName | Source/LuaVM.hpp:56 | a null name is recorded as `"unknown"` |
| Profiler.DurationMicros | Source/LuaVM.hpp:68 | microseconds truncated toward zero: within one unit of the nanosecond difference / 1000, for either sign |
| Profiler.ProfileStep | Source/LuaVM.hpp:59-76 | a call pushes (name, now); a return pops and reports end − start only when the top frame has its name; otherwise nothing changes |
| Profiler.LuaProfileReportor.constructor | Source/LuaVM.hpp:79 | the call stack starts empty |
| Profiler.LuaProfileReportor.LuaEventRecord | Source/LuaVM.hpp:53-77 | the stack and the measured duration are those of ProfileStep |
| Profiler.ReplayAppend | Source/LuaVM.hpp:53-77 | replaying two traces in sequence is replaying their concatenation |
| Profiler.CallThenReturn | Source/LuaVM.hpp:59-68 | a call followed by its return restores the stack and reports their time difference |
| Profiler.MismatchedReturnIgnored | Source/LuaVM.hpp:63-75 | a return that does not match the top frame changes nothing, even when the name is deeper in the stack |
| Profiler.NoReturnOnlyPushes | Source/LuaVM.hpp:59-62 | without returns, the initial stack stays a prefix |
| Profiler.TreeReplay | Source/LuaVM.hpp:53-77 | a completed, well-nested call restores any stack and reports every nested duration, innermost first |
| Profiler.ForestReplay | Source/LuaVM.hpp:53-77 | a sequence of completed calls restores the stack and reports their durations in order |
| LuaSession.LuaResult.AsBool | Source/LuaVM.hpp:43-45 | the bool conversion is true exactly when the result reports success |
| LuaSession.LogEntry | Source/LuaVM.hpp:467-479 | `__PushLog` appends nothing exactly when the message is empty; an untabbed entry starts with `"LuaVM Log: " + msg + "\n"` |
| LuaSession.LogEntryParts | Source/LuaVM.hpp:469-477 | an entry is the tabs, then the message line, then the extra line when there is one |
| LuaSession.Fail | Source/LuaVM.hpp:461-465 | a failure result carries its message, and the session changes only by the message logged as a child entry |
| LuaSession.Succeed | Source/LuaVM.hpp:461-465 | a success result carries its message, and the session changes only by the message logged as a top-level entry |
| LuaSession.ContextStep | Source/LuaVM.hpp:287-306 | succeeds exactly when the state is created; then a fresh context holds the library `package` table and the hook is off; a failure changes only the log |
| LuaSession.WorkSpaceStep | Source/LuaVM.hpp:311-405 | succeeds exactly for a directory with a context and a package table; records the workspace once both checks pass; on success extends both search paths and sets `__WORKDIR`; otherwise leaves `package` alone |
| LuaSession.EntryStep | Source/LuaVM.hpp:407-446 | throws exactly when there is a context and GetLuaEntry throws; otherwise extends the log and keeps the workspace and context (the entry file and function may change, see EntryFailureOrder); success records LocateModule's path and the parsed function |
| LuaSession.Ready | Source/LuaVM.hpp:449-460 | `__Check` passes exactly when there is a context, the workspace is a directory and the entry file exists; the two emptiness tests add nothing |
| LuaSession.Construct | Source/LuaVM.hpp:227-232 | throws exactly when a state was created and GetLuaEntry throws; otherwise the context is the state's creation, the workspace is recorded exactly when a state exists and the path is a directory, and the log opens with the context header |
| LuaSession.RunStep | Source/LuaVM.hpp:236-282 | never `bSuccess` (the bool conversion is false); an unready session only gets the not-initialized result; the entry call is made exactly when load and chunk succeed; the hook stays set exactly when an engine step fails |
| LuaSession.LuaVM.constructor | Source/LuaVM.hpp:227-232 | when nothing throws, the object holds Construct's state: the three steps in order, none skipped |
| LuaSession.LuaVM.PushLog | Source/LuaVM.hpp:467-479 | the tab loop and appends leave the log extended by LogEntry and nothing else changed |
| LuaSession.LuaVM.PushResult | Source/LuaVM.hpp:461-465 | a null result logs nothing; otherwise its message is logged |
| LuaSession.LuaVM.InitLuaVMContext | Source/LuaVM.hpp:287-306 | the fields and the result are those of ContextStep |
| LuaSession.LuaVM.InitWorkSpace | Source/LuaVM.hpp:311-405 | the fields and the result are those of WorkSpaceStep |
| LuaSession.LuaVM.InitEntryFunction | Source/LuaVM.hpp:407-446 | a thrown exception leaves the state unchanged; otherwise the fields and result are those of EntryStep |
| LuaSession.LuaVM.Run | Source/LuaVM.hpp:236-282 | the fields, the result and the entry call made are those of RunStep |
| LuaSession.LogAppendOnly | Source/LuaVM.hpp:287-479 | no step removes or rewrites an earlier log entry |
| LuaSession.RunLogGrows | Source/LuaVM.hpp:236-282 | Run only appends to the log |
| LuaSession.ChildEntryHasNoTab | Source/LuaVM.hpp:469-474 | with the default tab count, a child entry equals a top-level one |
| LuaSession.ChildEntryIndent | Source/LuaVM.hpp:469-474 | a child entry with tab count n ≥ 1 carries n − 1 tabs |
| LuaSession.EntryFailureOrder | Source/LuaVM.hpp:414-446 | reports the format error, then module-not-found, then function-not-found; the entry file and function are set before the function check; success means all three checks passed |
| LuaSession.EntryNeedsContext | Source/LuaVM.hpp:408-412 | without a context, only the context failure is logged and returned |
| LuaSession.EntrySuccessMeansDefinition | Source/LuaVM.hpp:422-446 | success means the workspace is valid, the entry file is a regular file, and its text defines the function |
| LuaSession.RecordedEntryIsReady | Source/LuaVM.hpp:430-431 | once an entry file is recorded, `__Check` passes on the same filesystem |
| LuaSession.ContextFailureDoesNotShortCircuit | Source/LuaVM.hpp:227-232 | when no state is created, the workspace and entry steps still run: the log holds the context header and failure, the workspace header and its failure, then the missing-context failure of the entry step, and nothing else changes |
| LuaSession.ConstructedReady | Source/LuaVM.hpp:227-232 | a constructed VM passes `__Check` exactly when an entry file was recorded |
| LuaSession.WorkSpaceSearchPath | Source/LuaVM.hpp:343-359 | after a successful InitWorkSpace, the `;`-separated pieces of `package.path` are the old ones followed by the five workspace templates |
| LuaSession.RunErrorKeepsHook | Source/LuaVM.hpp:247-256 | a load error past `__Check` logs the error as a child entry and leaves the hook installed |
| Commands.RunEnd | Source/CommandParser.hpp:49-51 | the inner loop's stop: the first `-` token from k on (or the end), with none before it |
| Commands.ParseCommand | Source/CommandParser.hpp:38-60 | name is `args[1]`; args and argMap are the Collected and Mapped specifications |
| Commands.MappedKeys | Source/CommandParser.hpp:44-52 | a string is a key of argMap exactly when some scanned `-` token equals it |
| Commands.MappedLastWins | Source/CommandParser.hpp:52 | a key is mapped to the values following its last occurrence |
| Commands.RunValuesMaximal | Source/CommandParser.hpp:49-51 | a key's values contain no `-` token and run up to the next one |
| Commands.RunIsOwned | Source/CommandParser.hpp:49-50 | every token in a key's run is consumed as a value |
| Commands.LastValueAlsoArgument | Source/CommandParser.hpp:49-56 | the last value of a key is also appended to the command's arguments |
| Commands.CollectedHasNoKeys | Source/CommandParser.hpp:53-56 | no `-` token is ever an argument |
| Commands.NoKeysAllArguments | Source/CommandParser.hpp:43-58 | without `-` tokens, every token from index 2 is an argument and argMap is empty |
| Commands.NoKeysNothingOwned | Source/CommandParser.hpp:49-50 | without `-` tokens, nothing is consumed as a value |
| Commands.ExampleCreate | Source/CommandParser.hpp:38-60 | `luaprofile --create -m vm1 -w dir` gives args `vm1`, `dir` and map `-m ↦ [vm1]`, `-w ↦ [dir]` |
| Commands.NextIndexProgress | Source/CommandParser.hpp:43-58 | an outer iteration leaves the index unchanged exactly at a `-` token with no value; otherwise it advances |
| Commands.ApproachBareKey | Source/CommandParser.hpp:43-58 | the index never passes the first value-less `-` token |
| Commands.StuckAtBareKey | Source/CommandParser.hpp:43-52 | once there, the index stays at that token |
| Commands.BareKeyNeverPassed | Source/CommandParser.hpp:43-52 | with a value-less `-` token, the loop stays on it forever |
| Commands.CheckCommandNum | Source/CommandParser.hpp:19-29 | throws invalid_argument, naming the command, exactly when the token count differs |
| Commands.Echo | Source/CommandParser.hpp:63-66 | the echo is at least one character per token plus a newline, ends with the newline, and opens with the first token and a space |
| Commands.CommandParser | Source/CommandParser.hpp:62-88 | output begins with the echo of every token |
| Commands.ZeroArgCommandsAlwaysThrow | Source/CommandParser.hpp:67-78 | `--help`, `--version` and `--list` print only the echo and throw |
| Commands.KnownCommandsPrintNothing | Source/CommandParser.hpp:79-84 | `--create`, `--destroy` and `--run` print only the echo |
| Commands.UnknownCommandReported | Source/CommandParser.hpp:85-87 | any other command prints `Unknown command: ` and its name, and nothing is thrown |
| Commands.Entry | Source/CommandParser.hpp:90-127 | status 0 always; standard error is written exactly when the dispatch throws |
| Logging.LevelName | Source/Logger.hpp:83-90 | `"UNKNOWN"` exactly for a value outside the four declared levels |
| Logging.DeclaredLevelNamesDistinct | Source/Logger.hpp:84-88 | the four declared levels print four different names |
| Logging.Quoted | Source/Logger.hpp:60 | a path is printed between double quotes |
| Logging.EscapedRoundTrip | Source/Logger.hpp:60 | the escaping of a quoted path is undone by unescaping |
| Logging.LogLine | Source/Logger.hpp:91 | a log line is `[`, the level name, `] `, then the whole prefix and a newline |
| Logging.Opened | Source/Logger.hpp:51-63 | with a path, the file is truncated to the start message, or the failure is reported on stderr; without one, nothing is written |
| Logging.Closed | Source/Logger.hpp:69-80 | with a path, the end message is appended, or the failure is reported; without one, nothing changes |
| Logging.LogStep | Source/Logger.hpp:82-105 | the prefix becomes prefix + message; the line goes to stdout exactly for CONSOLE/BOTH, and to the file exactly for FILE/BOTH with a path |
| Logging.Logger.constructor | Source/Logger.hpp:51-63 | the fields are those of Opened |
| Logging.Logger.Close | Source/Logger.hpp:69-80 | the fields are those of Closed |
| Logging.Logger.Log | Source/Logger.hpp:82-105 | the fields are those of LogStep |
| Logging.PrefixAccumulates | Source/Logger.hpp:91 | after any calls, the prefix is the initial prefix followed by every message, in order |
| Logging.ConsoleLines | Source/Logger.hpp:91-95 | console calls print one line per call, each carrying every earlier message |
| Logging.FileLines | Source/Logger.hpp:91-100 | file calls on an openable file append those lines and write nothing to stderr |
| Logging.FileLifecycle | Source/Logger.hpp:51-105 | construct, log to the file, destroy: the file holds the start message, the lines, then the end message |
| Logging.NoPathNoFile | Source/Logger.hpp:53-96 | without a path, no file or stderr write happens in any call |
| Logging.ConsoleOnlyLeavesFile | Source/Logger.hpp:93-104 | console-only calls leave the file and stderr alone |
| Logging.ExampleTwoCalls | Source/Logger.hpp:91-95 | from prefix P, logging `a` then `b` to the console prints the lines `[INFO] Pa` and `[ERROR] Pab` |

## Left out

- The Lua C API (`luaL_newstate`, `luaL_openlibs`, `luaL_loadfile`, `lua_pcall`, `lua_getfield`, `lua_sethook`) is a foreign runtime, so it is made abstract:
  - the state is a flag, and the library `package` table is a given record;
  - success of the loader chunk is the `loaderOk` input;
  - load, chunk and call outcomes are `EngineStatus` inputs;
  - the Lua stack pushes and pops are not modelled.
- `LuaHook` is empty in the source, so nothing feeds `LuaProfileReportor` during `Run`. The profiler is modelled on its own, driven by given hook events.
- The formatted hint strings in `LuaEventRecord` are built and then discarded, so they are not modelled. Neither are `lua_getinfo`, `short_src` and `currentline`.
- Clocks: `TimeClock::now()` readings are integer nanoseconds carried by each event. `GetTimeString` and time-zone formatting are left out.
- The `LOG(...)` calls in `CheckLuaFunction`, `FindLuaModule` and `InitWorkSpace` use the macro at Source/Tools.hpp:12-25. It compiles to nothing unless `USELOG` is defined, and to a formatted stream write otherwise; neither form is modelled. `LoggerManager`, which only stores an output path, is not modelled either. Console output such as the prints in `GetLuaWorkpace` is not modelled.
- The filesystem queries `exists`, `is_regular_file` and `is_directory` are assumed not to fail. The calls at Source/LuaVM.hpp:105, 174-175 and 456 and in `CheckPath` (Source/Tools.hpp:131-132) sit outside any `try`. An operating-system error there would throw `std::filesystem::filesystem_error` out of `InitWorkSpace`, `InitEntryFunction` or `Run`, and so out of the constructor; that path is not modelled.
- The engine's module searcher is not modelled. `SplitOn` yields every `;`-separated piece, empty ones included; the LuaJIT searcher skips empty pieces.
- Filesystem traversal order is whatever the given walk lists. A walk that throws part-way is modelled as the entries it yields before throwing.
- `RunLuaScript`/`RunLuaFunction`, `Source/LuaRegister.hpp`, `Source/Runner.hpp` and `main.cpp` are drivers and registration code that call `LuaVM`; they are not modelled. Neither are the type traits in `Source/Tools.hpp`, which are compile-time helpers, nor the benchmark harness.
- DefinitionScanner.CheckLuaFunction: `std::regex` is approximated by five hand-written matchers over the text. The function name is matched literally, as a Lua identifier without regex metacharacters would match. A name containing such characters would be read differently by the regex engine. `\s` is the six ASCII space characters and `\w` is ASCII letters, digits and `_`.
- Commands.ParseCommand: requires every `-` token to have a value (`NoBareKey`), because otherwise the source's loop never ends. That case is stated by `Commands.BareKeyNeverPassed` instead.
- Commands.ParseCommand, Commands.CommandParser and Commands.Entry: require at least two tokens. With fewer, the source reads `args[1]` out of bounds, which is undefined behaviour.
- Commands.CheckCommandNum: requires two tokens whenever the count differs, because only then does the source read `args[1]`.
- LuaSession.LuaVM.constructor: promises nothing when `InitEntryFunction` throws. The exception leaves the constructor and no object exists.
- Tools.GetLuaWorkpace: the current directory is a parameter in place of `current_path()`. `GetLuaCodePath` calls `GetLuaWorkpace` twice; both calls see the same filesystem.
- LuaSession.RunStep and LuaSession.LuaVM.Run: a chunk or entry function that raises a non-string error object (`error()`, `error({})`) leaves no string on the stack. `lua_tostring` then returns a null pointer, which `std::format` receives at Source/LuaVM.hpp:260 and 272; that is undefined behaviour, in practice a crash. The model's `EngineStatus.LuaError` always carries a string diagnostic, so it logs an ordinary `CallFailed` entry instead. `luaL_loadfile` always leaves a string message, so the load path at Source/LuaVM.hpp:253 is not affected.
- Concurrency is not modelled, and neither is the `double` payload of `LuaResult::luaResult`, which no code path sets.
