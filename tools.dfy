/**
 * The path helpers of Tools.hpp over an abstract filesystem.  The process's
 * current directory, which the source reads with current_path(), is a
 * parameter.
 */
module Tools {
  import opened Common
  import opened Fs

  /** True exactly for directories: the second test of the source (exists) is implied by the first. */
  function CheckPath(fs: FileSystem, p: Path): (r: bool)
    ensures r <==> IsDirectory(fs, p)
    ensures r ==> Exists(fs, p)
  {
    if !IsDirectory(fs, p) || !Exists(fs, p) then false else true
  }

  /** The Lua workspace: "Lua" under the current directory, else "Lua" beside it. */
  function GetLuaWorkpace(fs: FileSystem, cur: Path): (r: Option<Path>)
    ensures r.Some? ==> CheckPath(fs, r.value)
    ensures r.Some? ==> r.value == JoinPath(cur, "Lua") || r.value == JoinPath(ParentPath(cur), "Lua")
    ensures CheckPath(fs, JoinPath(cur, "Lua")) ==> r == Some(JoinPath(cur, "Lua"))
    ensures r.None? <==> !CheckPath(fs, JoinPath(cur, "Lua")) && !CheckPath(fs, JoinPath(ParentPath(cur), "Lua"))
  {
    var here := JoinPath(cur, "Lua");
    if Exists(fs, here) && IsDirectory(fs, here) then Some(here)
    else
      var beside := JoinPath(ParentPath(cur), "Lua");
      if Exists(fs, beside) && IsDirectory(fs, beside) then Some(beside)
      else None
  }

  /** The path of module `name` in the workspace, when that file exists (of any kind). */
  function GetLuaCodePath(fs: FileSystem, cur: Path, name: string): (r: Option<string>)
    ensures r.Some? <==>
      GetLuaWorkpace(fs, cur).Some? && Exists(fs, JoinPath(GetLuaWorkpace(fs, cur).value, name + ".lua"))
    ensures r.Some? ==> r.value == JoinPath(GetLuaWorkpace(fs, cur).value, name + ".lua")
  {
    if GetLuaWorkpace(fs, cur).None? then None
    else
      var luaPath := JoinPath(GetLuaWorkpace(fs, cur).value, name + ".lua");
      if !Exists(fs, luaPath) then None else Some(luaPath)
  }

  /** The parent of an optional path; absence is kept. */
  function GetPathPreix(path: Option<Path>): (r: Option<Path>)
    ensures r.None? <==> path.None?
    ensures path.Some? ==> r == Some(ParentPath(path.value))
  {
    if path.None? then None else Some(ParentPath(path.value))
  }

  /** The prefix of the workspace found from `cur` is `cur` itself or its parent. */
  lemma WorkspacePrefixIsSearchRoot(fs: FileSystem, cur: Path)
    requires IsPlainDirPath(cur) && IsPlainDirPath(ParentPath(cur))
    requires GetLuaWorkpace(fs, cur).Some?
    ensures GetPathPreix(GetLuaWorkpace(fs, cur)) == Some(cur)
         || GetPathPreix(GetLuaWorkpace(fs, cur)) == Some(ParentPath(cur))
    ensures CheckPath(fs, JoinPath(cur, "Lua")) ==> GetPathPreix(GetLuaWorkpace(fs, cur)) == Some(cur)
  {
    ParentOfJoin(cur, "Lua");
    ParentOfJoin(ParentPath(cur), "Lua");
  }

  /** A module path found by GetLuaCodePath names a file whose stem is the module name. */
  lemma CodePathStem(fs: FileSystem, cur: Path, name: string)
    requires name != [] && '/' !in name
    requires GetLuaWorkpace(fs, cur).Some? && IsPlainDirPath(GetLuaWorkpace(fs, cur).value)
    requires GetLuaCodePath(fs, cur, name).Some?
    ensures Stem(Filename(GetLuaCodePath(fs, cur, name).value)) == name
  {
    var ws := GetLuaWorkpace(fs, cur).value;
    assert '/' !in name + ".lua" by {
      assert forall i :: 0 <= i < |name + ".lua"| ==> (name + ".lua")[i] != '/' by {
        forall i | 0 <= i < |name + ".lua"| ensures (name + ".lua")[i] != '/' {
          if i < |name| { assert (name + ".lua")[i] == name[i]; }
        }
      }
    }
    ParentOfJoin(ws, name + ".lua");
    StemOfLuaFile(name);
  }
}
