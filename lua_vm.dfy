/**
 * The LuaVM session.  The Lua state is opaque: whether a context exists,
 * the `package` table's two search fields, the __WORKDIR global, whether
 * the loader helper is defined and whether the call/return hook is
 * installed.  What the Lua engine does (creating a state, loading and
 * running a chunk, calling a function) is given as an outcome parameter.
 * Each step is a function on a Session value; the class LuaVM holds the
 * same state in fields and its methods are proved to perform those steps.
 */
module LuaSession {
  import opened Common
  import opened Fs
  import opened Tools
  import opened LuaEntry
  import opened DefinitionScanner
  import opened ModuleLocator
  import opened PackagePaths

  datatype LuaResult = LuaResult(bSuccess: bool, msgError: string, luaResult: Option<real>, luaLog: Option<string>)
  {
    /** `operator bool`: a result converts to true exactly when it reports success. */
    function AsBool(): (b: bool)
      ensures b <==> bSuccess
    {
      bSuccess
    }
  }

  function Failure(msg: string): LuaResult { LuaResult(false, msg, None, None) }
  function Success(msg: string): LuaResult { LuaResult(true, msg, None, None) }

  /**
   * `package.path` and `package.cpath` as `lua_tostring` reads them: None when
   * the field is neither a string nor a number (a number reads as its text).
   */
  datatype PackageTable = PackageTable(path: Option<string>, cpath: Option<string>)

  /** What a Lua API call reported: LUA_OK, or an error with the message left on the stack. */
  datatype EngineStatus = LuaOk | LuaError(diagnostic: string)

  /** The function and argument handed to the entry call. */
  datatype Invocation = Invocation(callee: string, argument: string)

  datatype Session = Session(
    context: bool,                 // luaVMContext != nullptr
    package: Option<PackageTable>, // the global `package`, when it is a table
    workdir: Option<string>,       // the global __WORKDIR
    loadModule: bool,              // the global helper `loadmodule` is defined
    hookSet: bool,                 // a call/return hook is installed
    workspace: Path,
    log: string,                   // luaVMlog
    entryFile: Path,               // luaEntryFile
    entryFunc: string)             // luaEntryFunc

  /** The members' initial values, before the constructor body runs. */
  function Initial(): Session {
    Session(false, None, None, false, false, "", "", "", "")
  }

  datatype Step = Step(session: Session, result: LuaResult)
  datatype RunOutcome = RunOutcome(session: Session, result: LuaResult, invoked: Option<Invocation>)

  // ---------------------------------------------------------------------
  // The log

  function Tabs(n: nat): (r: string)
    ensures |r| == n && forall i :: 0 <= i < n ==> r[i] == '\t'
  {
    seq(n, i => '\t')
  }

  /**
   * What one __PushLog call appends: nothing for an empty message; else, for
   * a child entry, one tab fewer than `tabnum` (at least none), then the
   * message line and, when there is one, the extra line.
   */
  function LogEntry(log: string, isChild: bool, extra: string, tabnum: int): (r: string)
    ensures r == "" <==> log == ""
    ensures log != "" && (!isChild || tabnum <= 1) ==> StartsWith(r, "LuaVM Log: " + log + "\n")
  {
    if log == "" then ""
    else
      var tabs := if isChild then Tabs(Max(tabnum, 1) - 1) else "";
      var line := "LuaVM Log: " + log + "\n";
      assert tabs + line + (if extra != "" then "\t" + extra + "\n" else "") ==
             tabs + (line + (if extra != "" then "\t" + extra + "\n" else ""));
      tabs + line + (if extra != "" then "\t" + extra + "\n" else "")
  }

  lemma LogEntryParts(log: string, isChild: bool, extra: string, tabnum: int, tabs: nat)
    requires log != ""
    requires tabs == if isChild then Max(tabnum, 1) - 1 else 0
    ensures LogEntry(log, isChild, extra, tabnum) ==
      Tabs(tabs) + ("LuaVM Log: " + log + "\n") + (if extra != "" then "\t" + extra + "\n" else "")
  {
    assert Tabs(0) == "";
  }

  lemma AppendAssoc(a: string, b: string, c: string, d: string)
    ensures a + b + c + d == a + (b + c + d)
  {
  }

  function Logged(s: Session, msg: string, isChild: bool): Session {
    s.(log := s.log + LogEntry(msg, isChild, "", 1))
  }

  /** A failure result, logged as a child entry. */
  function Fail(s: Session, msg: string): (r: Step)
    ensures !r.result.bSuccess && r.result.msgError == msg
    ensures r.session == s.(log := s.log + LogEntry(msg, true, "", 1))
  {
    Step(Logged(s, msg, true), Failure(msg))
  }

  /** A success result, logged as a top-level entry. */
  function Succeed(s: Session, msg: string): (r: Step)
    ensures r.result.bSuccess && r.result.msgError == msg
    ensures r.session == s.(log := s.log + LogEntry(msg, false, "", 1))
  {
    Step(Logged(s, msg, false), Success(msg))
  }

  // ---------------------------------------------------------------------
  // Messages

  const ContextHeader := "Init Lua VM Context:"
  const ContextFailed := "Failed to create Lua VM; lua_State* L == nullptr"
  const ContextCreated := "Create Lua VM success"
  const WorkSpaceHeader := "Init Lua Work Space:"
  const NoContextForWorkSpace := "Lua VM Context Error! LuaVM::luaVMContext not exists"
  const NoPackageTable := "Lua package table not found"
  const WorkSpaceReady := "Success! Path Check Pass"
  const NoContextForEntry := "Lua VM Context is not initialized"
  const BadEntryFormat := "Invalid entry function format. Expected 'module::function'"
  const NotInitialized := "Lua VM is not properly initialized"

  function DirectoryError(path: Path): string { "Directory Error, path = " + path }
  function ModuleNotFound(m: string): string { "Module '" + m + "' not found in workspace" }
  function FunctionNotFound(f: string, m: string): string { "Function '" + f + "' not found in module '" + m + "'" }
  function EntryFound(m: string, f: string, path: Path): string { "Entry function '" + m + "::" + f + "' found at " + path }
  function LoadFailed(file: Path, e: string): string { "Failed to load Lua file: " + file + ", error: " + e }
  function CallFailed(file: Path, e: string): string { "Failed to call Lua function: " + file + ", error: " + e }

  // ---------------------------------------------------------------------
  // The steps

  /**
   * InitLuaVMContext: the header is logged first; a null state fails and
   * leaves the Lua state alone; otherwise a fresh state with the standard
   * libraries (and their `package` table, `libs`) replaces it.
   */
  function ContextStep(s: Session, newStateOk: bool, libs: PackageTable): (r: Step)
    ensures r.result.bSuccess <==> newStateOk
    ensures newStateOk ==> r.session.context && r.session.package == Some(libs) && !r.session.hookSet
    ensures !newStateOk ==> r.session == Logged(Logged(s, ContextHeader, false), ContextFailed, true)
    ensures StartsWith(r.session.log, s.log + LogEntry(ContextHeader, false, "", 1))
  {
    var s1 := Logged(s, ContextHeader, false);
    if !newStateOk then Fail(s1, ContextFailed)
    else
      Succeed(s1.(context := true, package := Some(libs), workdir := None, loadModule := false, hookSet := false),
              ContextCreated)
  }

  /**
   * InitWorkSpace: fails when the path is not a directory, then when there is
   * no context (the workspace is left unset in both cases), then when
   * `package` is not a table (the workspace has been set by then).  On
   * success both search paths are extended, the loader is defined if its
   * chunk ran, and __WORKDIR is the workspace.
   */
  function WorkSpaceStep(s: Session, fs: FileSystem, path: Path, loaderOk: bool): (r: Step)
    ensures r.result.bSuccess <==> CheckPath(fs, path) && s.context && s.package.Some?
    ensures !CheckPath(fs, path) ==> r.result.msgError == DirectoryError(path) && r.session.workspace == s.workspace
    ensures CheckPath(fs, path) && !s.context ==>
      r.result.msgError == NoContextForWorkSpace && r.session.workspace == s.workspace
    ensures CheckPath(fs, path) && s.context ==> r.session.workspace == path
    ensures r.result.bSuccess ==> r.session.workdir == Some(path) && r.session.package == Some(PackageTable(
      Some(PackagePath(RootOf(s.package.value.path), path)), Some(CPath(RootOf(s.package.value.cpath), path))))
    ensures !r.result.bSuccess ==> r.session.package == s.package
    ensures r.session.context == s.context && r.session.entryFile == s.entryFile && r.session.entryFunc == s.entryFunc
    ensures StartsWith(r.session.log, s.log + LogEntry(WorkSpaceHeader, false, "", 1))
  {
    var s1 := Logged(s, WorkSpaceHeader, false);
    if !CheckPath(fs, path) then Fail(s1, DirectoryError(path))
    else if !s.context then Fail(s1, NoContextForWorkSpace)
    else
      var s2 := s1.(workspace := path);
      match s2.package
      case None => Fail(s2, NoPackageTable)
      case Some(table) =>
        var updated := PackageTable(Some(PackagePath(RootOf(table.path), path)), Some(CPath(RootOf(table.cpath), path)));
        Succeed(s2.(package := Some(updated), loadModule := s2.loadModule || loaderOk, workdir := Some(path)),
                WorkSpaceReady)
  }

  /**
   * InitEntryFunction.  GetLuaEntry may throw, which escapes (Threw);
   * otherwise the checks run in order and the first failing one decides.
   */
  function EntryStep(s: Session, fs: FileSystem, funcname: string): (r: Result<Step>)
    ensures r.Threw? <==> s.context && GetLuaEntry(funcname).Threw?
    ensures r.Returned? ==> StartsWith(r.value.session.log, s.log)
    ensures r.Returned? ==> r.value.session.workspace == s.workspace && r.value.session.context == s.context
    ensures r.Returned? && r.value.result.bSuccess ==>
      GetLuaEntry(funcname).Returned? &&
      r.value.session.entryFile == LocateModule(fs, s.workspace, GetLuaEntry(funcname).value.luaFileName) &&
      r.value.session.entryFunc == GetLuaEntry(funcname).value.luaFuncName
  {
    if !s.context then Returned(Fail(s, NoContextForEntry))
    else match GetLuaEntry(funcname)
      case Threw(e) => Threw(e)
      case Returned(entry) =>
        if entry.luaFileName == "" then Returned(Fail(s, BadEntryFormat))
        else
          var modulePath := LocateModule(fs, s.workspace, entry.luaFileName);
          if modulePath == "" then Returned(Fail(s, ModuleNotFound(entry.luaFileName)))
          else
            var s2 := s.(entryFile := modulePath, entryFunc := entry.luaFuncName);
            if !CheckLuaFunction(fs, modulePath, entry.luaFuncName) then
              Returned(Fail(s2, FunctionNotFound(entry.luaFuncName, entry.luaFileName)))
            else
              Returned(Succeed(s2, EntryFound(entry.luaFileName, entry.luaFuncName, modulePath)))
  }

  /**
   * __Check.  The two emptiness tests are subsumed by the filesystem
   * queries: the session is ready exactly when there is a context, the
   * workspace is a directory and the entry file exists.
   */
  function Ready(s: Session, fs: FileSystem): (r: bool)
    ensures r <==> s.context && IsDirectory(fs, s.workspace) && Exists(fs, s.entryFile)
  {
    s.context && s.workspace != "" && CheckPath(fs, s.workspace) &&
    s.entryFile != "" && Exists(fs, s.entryFile)
  }

  /**
   * Run: refused unless Ready; otherwise the hook is installed, the entry
   * file is loaded and run, and the function named by the `funcname`
   * argument is called with `args`.  No path reports success.
   */
  function RunStep(s: Session, fs: FileSystem, funcname: string, args: string,
                   load: EngineStatus, chunk: EngineStatus, call: EngineStatus): (r: RunOutcome)
    ensures !r.result.bSuccess && !r.result.AsBool()
    ensures !Ready(s, fs) ==> r == RunOutcome(s, Failure(NotInitialized), None)
    ensures r.invoked.Some? <==> Ready(s, fs) && load.LuaOk? && chunk.LuaOk?
    ensures r.invoked.Some? ==> r.invoked.value == Invocation(funcname, args)
    ensures Ready(s, fs) ==> (r.session.hookSet <==> !(load.LuaOk? && chunk.LuaOk? && call.LuaOk?))
    ensures Ready(s, fs) && load.LuaOk? && chunk.LuaOk? && call.LuaOk? ==>
      r.result == Failure("") && r.session == s.(hookSet := false)
  {
    if !Ready(s, fs) then RunOutcome(s, Failure(NotInitialized), None)
    else
      var s1 := s.(hookSet := true);
      if load.LuaError? then
        var st := Fail(s1, LoadFailed(s.entryFile, load.diagnostic));
        RunOutcome(st.session, st.result, None)
      else if chunk.LuaError? then
        var st := Fail(s1, CallFailed(s.entryFile, chunk.diagnostic));
        RunOutcome(st.session, st.result, None)
      else
        var invoked := Some(Invocation(funcname, args));
        if call.LuaError? then
          var st := Fail(s1, CallFailed(s.entryFile, call.diagnostic));
          RunOutcome(st.session, st.result, invoked)
        else RunOutcome(s1.(hookSet := false), Failure(""), invoked)
  }

  /**
   * The constructor: the three steps in order, whatever each of them
   * reports.  It throws exactly when a state was created and the entry
   * reference makes GetLuaEntry throw; otherwise the context is the state's
   * creation, the workspace is recorded exactly when a state exists and the
   * path is a directory, and the log opens with the context header.
   */
  function Construct(fs: FileSystem, pathWorkspace: Path, funcname: string,
                     newStateOk: bool, libs: PackageTable, loaderOk: bool): (r: Result<Session>)
    ensures r.Threw? <==> newStateOk && GetLuaEntry(funcname).Threw?
    ensures r.Returned? ==> r.value.context == newStateOk
    ensures r.Returned? ==>
      r.value.workspace == (if newStateOk && CheckPath(fs, pathWorkspace) then pathWorkspace else "")
    ensures r.Returned? ==> StartsWith(r.value.log, LogEntry(ContextHeader, false, "", 1))
  {
    var s1 := ContextStep(Initial(), newStateOk, libs).session;
    var s2 := WorkSpaceStep(s1, fs, pathWorkspace, loaderOk).session;
    InitialSteps(fs, pathWorkspace, newStateOk, libs, loaderOk);
    match EntryStep(s2, fs, funcname)
    case Threw(e) => Threw(e)
    case Returned(st) =>
      StartsWithTrans(st.session.log, s2.log, LogEntry(ContextHeader, false, "", 1));
      Returned(st.session)
  }

  /** What the constructor's first two steps leave, from the initial members. */
  lemma InitialSteps(fs: FileSystem, pathWorkspace: Path, newStateOk: bool, libs: PackageTable, loaderOk: bool)
    ensures var s2 := WorkSpaceStep(ContextStep(Initial(), newStateOk, libs).session, fs, pathWorkspace, loaderOk).session;
            s2.context == newStateOk &&
            s2.workspace == (if newStateOk && CheckPath(fs, pathWorkspace) then pathWorkspace else "") &&
            StartsWith(s2.log, LogEntry(ContextHeader, false, "", 1))
  {
    var s1 := ContextStep(Initial(), newStateOk, libs).session;
    assert s1.workspace == "";
    assert "" + LogEntry(ContextHeader, false, "", 1) == LogEntry(ContextHeader, false, "", 1);
    var s2 := WorkSpaceStep(s1, fs, pathWorkspace, loaderOk).session;
    StartsWithShorter(s2.log, s1.log, LogEntry(WorkSpaceHeader, false, "", 1));
    StartsWithTrans(s2.log, s1.log, LogEntry(ContextHeader, false, "", 1));
  }

  // ---------------------------------------------------------------------
  // The object

  class LuaVM {
    var context: bool
    var package: Option<PackageTable>
    var workdir: Option<string>
    var loadModule: bool
    var hookSet: bool
    var workspace: Path
    var luaVMlog: string
    var luaEntryFile: Path
    var luaEntryFunc: string

    function State(): Session
      reads this
    {
      Session(context, package, workdir, loadModule, hookSet, workspace, luaVMlog, luaEntryFile, luaEntryFunc)
    }

    /** The constructor; when InitEntryFunction throws, the exception leaves the constructor and no object exists. */
    constructor (fs: FileSystem, pathWorkspace: Path, funcname: string,
                 newStateOk: bool, libs: PackageTable, loaderOk: bool)
      ensures Construct(fs, pathWorkspace, funcname, newStateOk, libs, loaderOk).Returned? ==>
        State() == Construct(fs, pathWorkspace, funcname, newStateOk, libs, loaderOk).value
    {
      context, package, workdir, loadModule, hookSet := false, None, None, false, false;
      workspace, luaVMlog, luaEntryFile, luaEntryFunc := "", "", "", "";
      new;
      var _ := InitLuaVMContext(newStateOk, libs);
      var _ := InitWorkSpace(fs, pathWorkspace, loaderOk);
      var _ := InitEntryFunction(fs, funcname);
    }

    predicate Check(fs: FileSystem)
      reads this
    {
      Ready(State(), fs)
    }

    /** `luaVMlog += text`. */
    method Append(text: string)
      modifies this
      ensures State() == old(State()).(log := old(luaVMlog) + text)
    {
      luaVMlog := luaVMlog + text;
    }

    /** __PushLog(std::string, ...). */
    method PushLog(log: string, isChild: bool, extra: string, tabnum: int)
      modifies this
      ensures State() == old(State()).(log := old(luaVMlog) + LogEntry(log, isChild, extra, tabnum))
    {
      if log != "" {
        ghost var before := State();
        var tabs := 0;
        if isChild {
          var loop := if tabnum < 1 then 1 else tabnum;
          for i := 1 to loop
            invariant luaVMlog == before.log + Tabs(i - 1)
            invariant State() == before.(log := luaVMlog)
          {
            Append("\t");
            assert Tabs(i - 1) + "\t" == Tabs(i);
          }
          tabs := loop - 1;
        }
        assert Tabs(0) == "";
        assert luaVMlog == before.log + Tabs(tabs) && State() == before.(log := luaVMlog);
        var line := "LuaVM Log: " + log + "\n";
        var extraLine := if extra != "" then "\t" + extra + "\n" else "";
        Append(line);
        if extra != "" {
          Append(extraLine);
        } else {
          assert luaVMlog + extraLine == luaVMlog;
        }
        LogEntryParts(log, isChild, extra, tabnum, tabs);
        AppendAssoc(before.log, Tabs(tabs), line, extraLine);
      }
    }

    /** __PushLog(LuaResult*, ...): a null result logs nothing. */
    method PushResult(ret: Option<LuaResult>, isChild: bool)
      modifies this
      ensures ret.None? ==> State() == old(State())
      ensures ret.Some? ==> State() == Logged(old(State()), ret.value.msgError, isChild)
    {
      if ret.Some? {
        PushLog(ret.value.msgError, isChild, "", 1);
      }
    }

    method InitLuaVMContext(newStateOk: bool, libs: PackageTable) returns (ret: LuaResult)
      modifies this
      ensures State() == ContextStep(old(State()), newStateOk, libs).session
      ensures ret == ContextStep(old(State()), newStateOk, libs).result
    {
      PushLog(ContextHeader, false, "", 1);
      if !newStateOk {
        ret := Failure(ContextFailed);
        PushResult(Some(ret), true);
        return;
      }
      context, package, workdir, loadModule, hookSet := true, Some(libs), None, false, false;
      ret := Success(ContextCreated);
      PushResult(Some(ret), false);
    }

    method InitWorkSpace(fs: FileSystem, path: Path, loaderOk: bool) returns (ret: LuaResult)
      modifies this
      ensures State() == WorkSpaceStep(old(State()), fs, path, loaderOk).session
      ensures ret == WorkSpaceStep(old(State()), fs, path, loaderOk).result
    {
      ghost var s1 := Logged(State(), WorkSpaceHeader, false);
      PushLog(WorkSpaceHeader, false, "", 1);
      assert State() == s1;
      if !CheckPath(fs, path) {
        ret := Failure(DirectoryError(path));
        PushResult(Some(ret), true);
        return;
      }
      if !context {
        ret := Failure(NoContextForWorkSpace);
        PushResult(Some(ret), true);
        return;
      }
      workspace := path;
      if package.None? {
        ret := Failure(NoPackageTable);
        PushResult(Some(ret), true);
        return;
      }
      ghost var table := package.value;
      var rootPath := RootOf(package.value.path);
      var packagePath := PackagePath(rootPath, workspace);
      package := Some(package.value.(path := Some(packagePath)));
      var rootCPath := RootOf(package.value.cpath);
      var clibPath := CPath(rootCPath, workspace);
      package := Some(package.value.(cpath := Some(clibPath)));
      assert package == Some(PackageTable(Some(PackagePath(RootOf(table.path), path)), Some(CPath(RootOf(table.cpath), path))));
      if loaderOk {
        loadModule := true;
      }
      workdir := Some(workspace);
      ghost var s2 := State();
      assert s2 == s1.(workspace := path).(package := package, loadModule := s1.loadModule || loaderOk, workdir := Some(path));
      ret := Success(WorkSpaceReady);
      PushResult(Some(ret), false);
      assert State() == Logged(s2, WorkSpaceReady, false);
    }

    method InitEntryFunction(fs: FileSystem, funcname: string) returns (ret: Result<LuaResult>)
      modifies this
      ensures EntryStep(old(State()), fs, funcname).Threw? ==>
        ret == Threw(EntryStep(old(State()), fs, funcname).exception) && State() == old(State())
      ensures EntryStep(old(State()), fs, funcname).Returned? ==>
        ret == Returned(EntryStep(old(State()), fs, funcname).value.result) &&
        State() == EntryStep(old(State()), fs, funcname).value.session
    {
      if !context {
        var r := Failure(NoContextForEntry);
        PushResult(Some(r), true);
        return Returned(r);
      }
      var parsed := GetLuaEntry(funcname);
      if parsed.Threw? {
        return Threw(parsed.exception);
      }
      var entry := parsed.value;
      if entry.luaFileName == "" {
        var r := Failure(BadEntryFormat);
        PushResult(Some(r), true);
        return Returned(r);
      }
      var modulePath := FindLuaModule(fs, workspace, entry.luaFileName);
      if modulePath == "" {
        var r := Failure(ModuleNotFound(entry.luaFileName));
        PushResult(Some(r), true);
        return Returned(r);
      }
      luaEntryFile := modulePath;
      luaEntryFunc := entry.luaFuncName;
      if !CheckLuaFunction(fs, modulePath, entry.luaFuncName) {
        var r := Failure(FunctionNotFound(entry.luaFuncName, entry.luaFileName));
        PushResult(Some(r), true);
        return Returned(r);
      }
      var r := Success(EntryFound(entry.luaFileName, entry.luaFuncName, modulePath));
      PushResult(Some(r), false);
      return Returned(r);
    }

    method Run(fs: FileSystem, funcname: string, args: string,
               load: EngineStatus, chunk: EngineStatus, call: EngineStatus)
      returns (ret: LuaResult, invoked: Option<Invocation>)
      modifies this
      ensures State() == RunStep(old(State()), fs, funcname, args, load, chunk, call).session
      ensures ret == RunStep(old(State()), fs, funcname, args, load, chunk, call).result
      ensures invoked == RunStep(old(State()), fs, funcname, args, load, chunk, call).invoked
    {
      invoked := None;
      if !Check(fs) {
        ret := Failure(NotInitialized);
        return;
      }
      ret := LuaResult(false, "", None, None);
      hookSet := true;
      if load.LuaError? {
        ret := ret.(bSuccess := false, msgError := LoadFailed(luaEntryFile, load.diagnostic));
        PushResult(Some(ret), true);
        return;
      }
      if chunk.LuaError? {
        ret := ret.(bSuccess := false, msgError := CallFailed(luaEntryFile, chunk.diagnostic));
        PushResult(Some(ret), true);
        return;
      }
      invoked := Some(Invocation(funcname, args));
      if call.LuaError? {
        ret := ret.(bSuccess := false, msgError := CallFailed(luaEntryFile, call.diagnostic));
        PushResult(Some(ret), true);
        return;
      }
      hookSet := false;
    }
  }

  // ---------------------------------------------------------------------
  // Properties of a session

  /** The log only grows: no step removes or rewrites an earlier entry. */
  lemma LogAppendOnly(s: Session, fs: FileSystem, path: Path, funcname: string, newStateOk: bool,
                      libs: PackageTable, loaderOk: bool, args: string,
                      load: EngineStatus, chunk: EngineStatus, call: EngineStatus)
    ensures StartsWith(ContextStep(s, newStateOk, libs).session.log, s.log)
    ensures StartsWith(WorkSpaceStep(s, fs, path, loaderOk).session.log, s.log)
    ensures EntryStep(s, fs, funcname).Returned? ==> StartsWith(EntryStep(s, fs, funcname).value.session.log, s.log)
    ensures StartsWith(RunStep(s, fs, funcname, args, load, chunk, call).session.log, s.log)
  {
    StartsWithShorter(ContextStep(s, newStateOk, libs).session.log, s.log, LogEntry(ContextHeader, false, "", 1));
    StartsWithShorter(WorkSpaceStep(s, fs, path, loaderOk).session.log, s.log, LogEntry(WorkSpaceHeader, false, "", 1));
    RunLogGrows(s, fs, funcname, args, load, chunk, call);
  }

  lemma RunLogGrows(s: Session, fs: FileSystem, funcname: string, args: string,
                    load: EngineStatus, chunk: EngineStatus, call: EngineStatus)
    ensures StartsWith(RunStep(s, fs, funcname, args, load, chunk, call).session.log, s.log)
  {
    var r := RunStep(s, fs, funcname, args, load, chunk, call).session.log;
    assert r[..|s.log|] == s.log;
  }

  /** With the default tab count a child entry carries no tab. */
  lemma ChildEntryHasNoTab(msg: string)
    requires msg != ""
    ensures LogEntry(msg, true, "", 1) == LogEntry(msg, false, "", 1) == "LuaVM Log: " + msg + "\n"
  {
    assert Tabs(0) == "";
  }

  /** A deeper child entry is indented by one tab fewer than its tab count. */
  lemma ChildEntryIndent(msg: string, tabnum: int)
    requires msg != "" && tabnum >= 1
    ensures LogEntry(msg, true, "", tabnum) == Tabs(tabnum - 1) + "LuaVM Log: " + msg + "\n"
  {
  }

  /**
   * With a context and a parsable name, InitEntryFunction reports the first
   * failing check: an empty module, then a module not found, then a function
   * not found (by then the entry file and function are already recorded).
   */
  lemma EntryFailureOrder(s: Session, fs: FileSystem, funcname: string)
    requires s.context && GetLuaEntry(funcname).Returned?
    ensures var e := GetLuaEntry(funcname).value;
            var st := EntryStep(s, fs, funcname).value;
            var path := LocateModule(fs, s.workspace, e.luaFileName);
            (e.luaFileName == "" ==> st.result == Failure(BadEntryFormat) && st.session.entryFile == s.entryFile) &&
            (e.luaFileName != "" && path == "" ==>
               st.result == Failure(ModuleNotFound(e.luaFileName)) && st.session.entryFile == s.entryFile) &&
            (e.luaFileName != "" && path != "" ==>
               st.session.entryFile == path && st.session.entryFunc == e.luaFuncName) &&
            (e.luaFileName != "" && path != "" && !CheckLuaFunction(fs, path, e.luaFuncName) ==>
               st.result == Failure(FunctionNotFound(e.luaFuncName, e.luaFileName))) &&
            (st.result.bSuccess <==> e.luaFileName != "" && path != "" && CheckLuaFunction(fs, path, e.luaFuncName))
  {
  }

  /** Without a context InitEntryFunction neither parses nor searches. */
  lemma EntryNeedsContext(s: Session, fs: FileSystem, funcname: string)
    requires !s.context
    ensures EntryStep(s, fs, funcname) == Returned(Fail(s, NoContextForEntry))
  {
  }

  /**
   * A successful InitEntryFunction has found a regular file in a valid
   * workspace whose text defines the function by one of the five patterns.
   */
  lemma EntrySuccessMeansDefinition(s: Session, fs: FileSystem, funcname: string)
    requires EntryStep(s, fs, funcname).Returned? && EntryStep(s, fs, funcname).value.result.bSuccess
    ensures var t := EntryStep(s, fs, funcname).value.session;
            CheckPath(fs, s.workspace) && IsRegularFile(fs, t.entryFile) &&
            ReadFile(fs, t.entryFile).Text? && AnyDefinition(ReadFile(fs, t.entryFile).content, t.entryFunc)
  {
  }

  /** A session whose InitEntryFunction recorded an entry file passes __Check while the filesystem is unchanged. */
  lemma RecordedEntryIsReady(s: Session, fs: FileSystem, funcname: string)
    requires EntryStep(s, fs, funcname).Returned?
    requires EntryStep(s, fs, funcname).value.session.entryFile != s.entryFile
    ensures Ready(EntryStep(s, fs, funcname).value.session, fs)
  {
  }

  /** Constructing a VM leaves it ready to run exactly when an entry file was recorded. */
  lemma ConstructedReady(fs: FileSystem, pathWorkspace: Path, funcname: string,
                         newStateOk: bool, libs: PackageTable, loaderOk: bool)
    requires Construct(fs, pathWorkspace, funcname, newStateOk, libs, loaderOk).Returned?
    ensures var s := Construct(fs, pathWorkspace, funcname, newStateOk, libs, loaderOk).value;
            Ready(s, fs) <==> s.entryFile != ""
  {
    var s1 := ContextStep(Initial(), newStateOk, libs).session;
    var s2 := WorkSpaceStep(s1, fs, pathWorkspace, loaderOk).session;
    assert s1.entryFile == "";
    assert s2.entryFile == "";
    var s := Construct(fs, pathWorkspace, funcname, newStateOk, libs, loaderOk).value;
    if s.entryFile != "" {
      RecordedEntryIsReady(s2, fs, funcname);
    }
  }

  /**
   * Construction does not stop at a failed state creation: InitWorkSpace
   * and InitEntryFunction still run, each logging its header or failure,
   * and nothing but the log changes.
   */
  lemma ContextFailureDoesNotShortCircuit(fs: FileSystem, pathWorkspace: Path, funcname: string,
                                          libs: PackageTable, loaderOk: bool)
    ensures Construct(fs, pathWorkspace, funcname, false, libs, loaderOk) == Returned(Initial().(log :=
      LogEntry(ContextHeader, false, "", 1) + LogEntry(ContextFailed, true, "", 1) +
      LogEntry(WorkSpaceHeader, false, "", 1) +
      LogEntry(if CheckPath(fs, pathWorkspace) then NoContextForWorkSpace else DirectoryError(pathWorkspace), true, "", 1) +
      LogEntry(NoContextForEntry, true, "", 1)))
  {
    var s1 := ContextStep(Initial(), false, libs).session;
    assert s1 == Initial().(log := "" + LogEntry(ContextHeader, false, "", 1) + LogEntry(ContextFailed, true, "", 1));
    var s2 := WorkSpaceStep(s1, fs, pathWorkspace, loaderOk).session;
    var wsError := if CheckPath(fs, pathWorkspace) then NoContextForWorkSpace else DirectoryError(pathWorkspace);
    assert s2 == s1.(log := s1.log + LogEntry(WorkSpaceHeader, false, "", 1) + LogEntry(wsError, true, "", 1));
    EntryNeedsContext(s2, fs, funcname);
    assert "" + LogEntry(ContextHeader, false, "", 1) == LogEntry(ContextHeader, false, "", 1);
  }

  /** After a successful InitWorkSpace the ';'-separated pieces of package.path are the old ones, then the five workspace templates. */
  lemma WorkSpaceSearchPath(s: Session, fs: FileSystem, path: Path, loaderOk: bool)
    requires WorkSpaceStep(s, fs, path, loaderOk).result.bSuccess
    requires ';' !in path
    ensures var p := WorkSpaceStep(s, fs, path, loaderOk).session.package.value.path.value;
            SplitOn(p, ';') == SplitOn(RootOf(s.package.value.path), ';') + LuaPathPatterns(path)
  {
    PackagePathTemplates(RootOf(s.package.value.path), path);
  }

  /** When Run gets past __Check but the engine reports an error, the hook stays installed and the error is logged. */
  lemma RunErrorKeepsHook(s: Session, fs: FileSystem, funcname: string, args: string,
                          load: EngineStatus, chunk: EngineStatus, call: EngineStatus)
    requires Ready(s, fs)
    requires load.LuaError?
    ensures var r := RunStep(s, fs, funcname, args, load, chunk, call);
            r.session.hookSet && r.result == Failure(LoadFailed(s.entryFile, load.diagnostic)) &&
            r.session.log == s.log + LogEntry(LoadFailed(s.entryFile, load.diagnostic), true, "", 1)
  {
  }
}
