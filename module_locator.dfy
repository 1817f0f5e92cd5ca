/**
 * FindLuaModule: from a workspace and a module name to a file.  Dots in the
 * name become separators; "<ws>/<name>.lua" and then "<ws>/<name>" are
 * probed; failing both, the workspace is walked recursively and the first
 * regular file whose stem equals the last component of the name is taken.
 * The empty path stands for "not found".
 */
module ModuleLocator {
  import opened Common
  import opened Fs
  import opened Tools

  /** std::replace(name, '.', '/'). */
  function Normalize(moduleName: string): (r: string)
    ensures |r| == |moduleName|
    ensures '.' !in r
    ensures forall i :: 0 <= i < |r| && moduleName[i] != '.' ==> r[i] == moduleName[i]
    ensures forall i :: 0 <= i < |r| && moduleName[i] == '.' ==> r[i] == '/'
  {
    seq(|moduleName|, i requires 0 <= i < |moduleName| =>
      if moduleName[i] == '.' then '/' else moduleName[i])
  }

  /** The part of a normalized name after its last '/', or all of it. */
  function Basename(normalizedName: string): (r: string)
    ensures '/' !in r
    ensures |r| <= |normalizedName| && r == normalizedName[|normalizedName| - |r|..]
    ensures '/' !in normalizedName ==> r == normalizedName
    ensures '/' in normalizedName ==> |r| < |normalizedName| && normalizedName[|normalizedName| - |r| - 1] == '/'
  {
    match LastIndexOf(normalizedName, '/')
    case None => normalizedName
    case Some(last) => normalizedName[last + 1..]
  }

  /** The two direct probes, in the order they are tried. */
  function PossiblePaths(workspace: Path, normalizedName: string): seq<Path> {
    [JoinPath(workspace, normalizedName + ".lua"), JoinPath(workspace, normalizedName)]
  }

  /** What the recursive search accepts: a regular file whose stem is the basename. */
  predicate StemMatches(fs: FileSystem, entry: Path, basename: string) {
    IsRegularFile(fs, entry) && Stem(Filename(entry)) == basename
  }

  /** The position of the first accepted entry of a walk, or its length when there is none. */
  function FirstStemMatch(fs: FileSystem, entries: seq<Path>, basename: string): (k: nat)
    ensures k <= |entries|
    ensures k < |entries| ==> StemMatches(fs, entries[k], basename)
    ensures forall j :: 0 <= j < k ==> !StemMatches(fs, entries[j], basename)
    decreases |entries|
  {
    if entries == [] then 0
    else if StemMatches(fs, entries[0], basename) then 0
    else 1 + FirstStemMatch(fs, entries[1..], basename)
  }

  /**
   * The file FindLuaModule returns.  A walk that throws before reaching a
   * match and a walk that finds nothing both give the empty path.
   */
  function LocateModule(fs: FileSystem, workspace: Path, moduleName: string): (r: Path)
    ensures r != "" ==> CheckPath(fs, workspace) && IsRegularFile(fs, r)
  {
    if !CheckPath(fs, workspace) then ""
    else
      var normalizedName := Normalize(moduleName);
      var probes := PossiblePaths(workspace, normalizedName);
      if Exists(fs, probes[0]) && IsRegularFile(fs, probes[0]) then probes[0]
      else if Exists(fs, probes[1]) && IsRegularFile(fs, probes[1]) then probes[1]
      else
        WalkResult(fs, WalkOf(fs, workspace).entries, Basename(normalizedName))
  }

  /** The file the recursive search settles on: the first accepted entry, or the empty path. */
  function WalkResult(fs: FileSystem, entries: seq<Path>, basename: string): (r: Path)
    ensures r != "" ==> r in entries && StemMatches(fs, r, basename)
  {
    var k := FirstStemMatch(fs, entries, basename);
    if k < |entries| then entries[k] else ""
  }

  method FindLuaModule(fs: FileSystem, workspace: Path, moduleName: string) returns (p: Path)
    ensures p == LocateModule(fs, workspace, moduleName)
    ensures !CheckPath(fs, workspace) ==> p == ""
    ensures p != "" ==> IsRegularFile(fs, p)
  {
    if !CheckPath(fs, workspace) {
      return "";
    }
    var normalizedName := Normalize(moduleName);
    var possiblePaths := PossiblePaths(workspace, normalizedName);
    for idx := 0 to |possiblePaths|
      invariant forall j :: 0 <= j < idx ==> !IsRegularFile(fs, possiblePaths[j])
    {
      var path := possiblePaths[idx];
      if Exists(fs, path) && IsRegularFile(fs, path) {
        assert idx == 0 || !IsRegularFile(fs, possiblePaths[0]);
        return path;
      }
    }
    assert !IsRegularFile(fs, possiblePaths[0]) && !IsRegularFile(fs, possiblePaths[1]);
    p := SearchWalk(fs, WalkOf(fs, workspace), Basename(normalizedName));
  }

  /** The recursive search; the caught exception and "not found" both end in "". */
  method SearchWalk(fs: FileSystem, walk: Walk, basename: string) returns (p: Path)
    ensures p == WalkResult(fs, walk.entries, basename)
  {
    var i := 0;
    while i < |walk.entries|
      invariant 0 <= i <= |walk.entries|
      invariant forall j :: 0 <= j < i ==> !StemMatches(fs, walk.entries[j], basename)
    {
      var entry := walk.entries[i];
      if IsRegularFile(fs, entry) {
        var filename := Stem(Filename(entry));
        if filename == basename {
          FirstStemMatchIs(fs, walk.entries, basename, i);
          return entry;
        }
      }
      i := i + 1;
    }
    FirstStemMatchIs(fs, walk.entries, basename, i);
    // A walk that throws (walk.throwsAtEnd) is caught by catch (...) and also yields "".
    return "";
  }

  /** FirstStemMatch is characterised by its contract: no earlier entry matches, entry k does. */
  lemma FirstStemMatchIs(fs: FileSystem, entries: seq<Path>, basename: string, k: nat)
    requires k <= |entries|
    requires k < |entries| ==> StemMatches(fs, entries[k], basename)
    requires forall j :: 0 <= j < k ==> !StemMatches(fs, entries[j], basename)
    ensures FirstStemMatch(fs, entries, basename) == k
  {
  }

  // ---------------------------------------------------------------------
  // Properties of the search

  /** The first probe wins whenever it is a regular file. */
  lemma FirstProbeWins(fs: FileSystem, workspace: Path, moduleName: string)
    requires CheckPath(fs, workspace)
    requires IsRegularFile(fs, JoinPath(workspace, Normalize(moduleName) + ".lua"))
    ensures LocateModule(fs, workspace, moduleName) == JoinPath(workspace, Normalize(moduleName) + ".lua")
  {
  }

  /** When only the extensionless probe `ws/norm` is a regular file, it is returned, whatever the walk holds. */
  lemma SecondProbeWins(fs: FileSystem, workspace: Path, moduleName: string)
    requires CheckPath(fs, workspace)
    requires !IsRegularFile(fs, JoinPath(workspace, Normalize(moduleName) + ".lua"))
    requires IsRegularFile(fs, JoinPath(workspace, Normalize(moduleName)))
    ensures LocateModule(fs, workspace, moduleName) == JoinPath(workspace, Normalize(moduleName))
  {
  }

  /** The fallback is reached only when neither probe is a regular file, and returns the first accepted entry. */
  lemma FallbackIsFirstMatch(fs: FileSystem, workspace: Path, moduleName: string, k: nat)
    requires CheckPath(fs, workspace)
    requires !IsRegularFile(fs, JoinPath(workspace, Normalize(moduleName) + ".lua"))
    requires !IsRegularFile(fs, JoinPath(workspace, Normalize(moduleName)))
    requires k < |WalkOf(fs, workspace).entries|
    requires StemMatches(fs, WalkOf(fs, workspace).entries[k], Basename(Normalize(moduleName)))
    requires forall j :: 0 <= j < k ==>
      !StemMatches(fs, WalkOf(fs, workspace).entries[j], Basename(Normalize(moduleName)))
    ensures LocateModule(fs, workspace, moduleName) == WalkOf(fs, workspace).entries[k]
  {
    FirstStemMatchIs(fs, WalkOf(fs, workspace).entries, Basename(Normalize(moduleName)), k);
  }

  /** No entry of a walk is accepted. */
  predicate NoStemMatch(fs: FileSystem, entries: seq<Path>, basename: string) {
    forall j :: 0 <= j < |entries| ==> !StemMatches(fs, entries[j], basename)
  }

  /** Not found: the workspace is invalid, or neither probe is a regular file and no walked entry is accepted. */
  lemma NotFoundIsEmpty(fs: FileSystem, workspace: Path, moduleName: string)
    ensures LocateModule(fs, workspace, moduleName) == "" <==>
      !CheckPath(fs, workspace) ||
      (!IsRegularFile(fs, PossiblePaths(workspace, Normalize(moduleName))[0]) &&
       !IsRegularFile(fs, PossiblePaths(workspace, Normalize(moduleName))[1]) &&
       NoStemMatch(fs, WalkOf(fs, workspace).entries, Basename(Normalize(moduleName))))
  {
    WalkResultEmpty(fs, WalkOf(fs, workspace).entries, Basename(Normalize(moduleName)));
  }

  /** The recursive search gives the empty path exactly when no entry is accepted. */
  lemma WalkResultEmpty(fs: FileSystem, entries: seq<Path>, basename: string)
    ensures WalkResult(fs, entries, basename) == "" <==> NoStemMatch(fs, entries, basename)
  {
    var k := FirstStemMatch(fs, entries, basename);
    if k < |entries| {
      assert StemMatches(fs, entries[k], basename);
    }
  }

  /**
   * For a name nested by '.' or '/' the fallback searches only by the last
   * component: "a.b" and "a/b" are found as any file "b.lua" (or "b")
   * anywhere in the workspace.
   */
  lemma NestedNameMatchesByLastComponent(moduleName: string, last: string)
    requires '.' !in last && '/' !in last
    requires |moduleName| > |last|
    requires moduleName[|moduleName| - |last| - 1] == '.' || moduleName[|moduleName| - |last| - 1] == '/'
    requires moduleName[|moduleName| - |last|..] == last
    ensures Basename(Normalize(moduleName)) == last
  {
  }

}
