/**
 * The search paths InitWorkSpace writes into Lua's `package` table.  Both
 * are built by appending to the value read from the table (a value that is
 * neither a string nor a number reads as "").  Each value is a list of pieces separated
 * by ';'; SplitOn yields those pieces, empty ones included, and the lemmas
 * below say which pieces each new value holds.
 */
module PackagePaths {
  import opened Common

  /** The five templates appended to package.path, in the order they are appended. */
  function LuaPathPatterns(workspace: string): seq<string> {
    [workspace + "/?.lua", workspace + "/?", workspace + "/?/?.lua", workspace + "/?/?", workspace + "/?.luac"]
  }

  /** The new package.path, concatenated as the source does it. */
  function PackagePath(rootPath: string, workspace: string): (r: string)
    ensures StartsWith(r, rootPath + ";")
  {
    rootPath + ";" +
    workspace + "/?.lua;" +
    workspace + "/?;" +
    workspace + "/?/?.lua;" +
    workspace + "/?/?;" +
    workspace + "/?.luac"
  }

  /** The new package.cpath: only the first separator is written. */
  function CPath(rootCPath: string, workspace: string): (r: string)
    ensures StartsWith(r, rootCPath + ";")
  {
    rootCPath + ";" +
    workspace + "/?.dll" +
    workspace + "/?.so" +
    workspace + "/loadall.dll"
  }

  /** The single template CPath adds: the three pieces run together. */
  function MergedCTemplate(workspace: string): string {
    workspace + "/?.dll" + workspace + "/?.so" + workspace + "/loadall.dll"
  }

  /** `lua_tostring` of the old field: a missing value reads as "". */
  function RootOf(field: Option<string>): (r: string)
    ensures field.Some? ==> r == field.value
    ensures field.None? ==> r == ""
  {
    field.GetOr("")
  }

  /** Elements separated by `sep`. */
  function JoinWith(parts: seq<string>, sep: char): string
    decreases |parts|
  {
    if parts == [] then ""
    else if |parts| == 1 then parts[0]
    else parts[0] + [sep] + JoinWith(parts[1..], sep)
  }

  /** The ';'-separated pieces of a search path, empty ones included (always at least one). */
  function SplitOn(s: string, sep: char): (r: seq<string>)
    ensures |r| >= 1
    ensures forall i :: 0 <= i < |r| ==> sep !in r[i]
    decreases |s|
  {
    if s == [] then [""]
    else
      var rest := SplitOn(s[1..], sep);
      if s[0] == sep then [""] + rest
      else [[s[0]] + rest[0]] + rest[1..]
  }

  // ---------------------------------------------------------------------
  // Splitting

  lemma {:induction false} SplitWithoutSeparator(s: string, sep: char)
    requires sep !in s
    ensures SplitOn(s, sep) == [s]
    decreases |s|
  {
    if s != [] {
      assert sep !in s[1..];
      SplitWithoutSeparator(s[1..], sep);
      assert [s[0]] + s[1..] == s;
    }
  }

  lemma {:induction false} SplitAtSeparator(a: string, sep: char, b: string)
    ensures SplitOn(a + [sep] + b, sep) == SplitOn(a, sep) + SplitOn(b, sep)
    decreases |a|
  {
    var s := a + [sep] + b;
    if a == [] {
      assert s[0] == sep && s[1..] == b;
    } else {
      assert s[0] == a[0];
      assert s[1..] == a[1..] + [sep] + b;
      SplitAtSeparator(a[1..], sep, b);
    }
  }

  /** Joining separator-free pieces and splitting again gives the pieces back. */
  lemma {:induction false} SplitJoin(parts: seq<string>, sep: char)
    requires |parts| >= 1
    requires forall i :: 0 <= i < |parts| ==> sep !in parts[i]
    ensures SplitOn(JoinWith(parts, sep), sep) == parts
    decreases |parts|
  {
    if |parts| == 1 {
      SplitWithoutSeparator(parts[0], sep);
    } else {
      SplitJoin(parts[1..], sep);
      SplitAtSeparator(parts[0], sep, JoinWith(parts[1..], sep));
      SplitWithoutSeparator(parts[0], sep);
      assert [parts[0]] + parts[1..] == parts;
    }
  }

  lemma SeparatorFreeConcat(a: string, b: string, sep: char)
    requires sep !in a && sep !in b
    ensures sep !in a + b
  {
    assert forall i :: 0 <= i < |a + b| ==> (a + b)[i] == (if i < |a| then a[i] else b[i - |a|]);
  }

  // ---------------------------------------------------------------------
  // What the search paths hold

  lemma JoinFive(a: string, b: string, c: string, d: string, e: string, sep: char)
    ensures JoinWith([a, b, c, d, e], sep) == a + [sep] + b + [sep] + c + [sep] + d + [sep] + e
  {
    assert [d, e][1..] == [e];
    assert JoinWith([d, e], sep) == d + [sep] + e;
    assert [c, d, e][1..] == [d, e];
    assert JoinWith([c, d, e], sep) == c + [sep] + (d + [sep] + e);
    assert [b, c, d, e][1..] == [c, d, e];
    assert JoinWith([b, c, d, e], sep) == b + [sep] + (c + [sep] + (d + [sep] + e));
    assert [a, b, c, d, e][1..] == [b, c, d, e];
  }

  /** package.path is the old root followed by the five templates joined with ';'. */
  lemma PackagePathIsJoin(rootPath: string, workspace: string)
    ensures PackagePath(rootPath, workspace) == rootPath + ";" + JoinWith(LuaPathPatterns(workspace), ';')
  {
    var w := workspace;
    JoinFive(w + "/?.lua", w + "/?", w + "/?/?.lua", w + "/?/?", w + "/?.luac", ';');
    assert w + "/?.lua;" == w + "/?.lua" + [';'];
    assert w + "/?;" == w + "/?" + [';'];
    assert w + "/?/?.lua;" == w + "/?/?.lua" + [';'];
    assert w + "/?/?;" == w + "/?/?" + [';'];
  }

  /**
   * Split at ';', the new package.path is the old pieces followed by the
   * five workspace templates, in order (for a workspace without ';').
   */
  lemma PackagePathTemplates(rootPath: string, workspace: string)
    requires ';' !in workspace
    ensures SplitOn(PackagePath(rootPath, workspace), ';') == SplitOn(rootPath, ';') + LuaPathPatterns(workspace)
  {
    var p := LuaPathPatterns(workspace);
    forall i | 0 <= i < |p| ensures ';' !in p[i] {
      var tails := ["/?.lua", "/?", "/?/?.lua", "/?/?", "/?.luac"];
      assert p[i] == workspace + tails[i];
      SeparatorFreeConcat(workspace, tails[i], ';');
    }
    PackagePathIsJoin(rootPath, workspace);
    SplitJoin(p, ';');
    SplitAtSeparator(rootPath, ';', JoinWith(p, ';'));
  }

  /** The new package.cpath adds a single template, the three pieces run together. */
  lemma CPathTemplates(rootCPath: string, workspace: string)
    requires ';' !in workspace
    ensures SplitOn(CPath(rootCPath, workspace), ';') == SplitOn(rootCPath, ';') + [MergedCTemplate(workspace)]
  {
    var m := MergedCTemplate(workspace);
    SeparatorFreeConcat(workspace, "/?.dll", ';');
    SeparatorFreeConcat(workspace + "/?.dll", workspace, ';');
    SeparatorFreeConcat(workspace + "/?.dll" + workspace, "/?.so", ';');
    SeparatorFreeConcat(workspace + "/?.dll" + workspace + "/?.so", workspace, ';');
    SeparatorFreeConcat(workspace + "/?.dll" + workspace + "/?.so" + workspace, "/loadall.dll", ';');
    SplitWithoutSeparator(m, ';');
    assert CPath(rootCPath, workspace) == rootCPath + [';'] + m;
    SplitAtSeparator(rootCPath, ';', m);
  }

  /** Initialising a second time with the same workspace lists its templates twice. */
  lemma PackagePathTwice(rootPath: string, workspace: string)
    requires ';' !in workspace
    ensures SplitOn(PackagePath(PackagePath(rootPath, workspace), workspace), ';') ==
            SplitOn(rootPath, ';') + LuaPathPatterns(workspace) + LuaPathPatterns(workspace)
  {
    PackagePathTemplates(rootPath, workspace);
    PackagePathTemplates(PackagePath(rootPath, workspace), workspace);
  }

  /** An unset package.path still yields a leading empty piece. */
  lemma EmptyRootLeadsWithEmptyTemplate(workspace: string)
    requires ';' !in workspace
    ensures SplitOn(PackagePath(RootOf(None), workspace), ';') == [""] + LuaPathPatterns(workspace)
  {
    PackagePathTemplates("", workspace);
  }
}
