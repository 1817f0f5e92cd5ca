/**
 * CheckLuaFunction: does a Lua source file plausibly define a function of a
 * given name?  The source builds five ECMAScript regular expressions around
 * the name and asks std::regex_search whether any matches somewhere in the
 * file.  Each pattern is written here as a predicate "there is a position
 * where the pattern matches", with \s, \w and \b as std::regex defines them
 * in the "C" locale and the name taken literally.
 */
module DefinitionScanner {
  import opened Common
  import opened Fs

  /** \s */
  predicate IsSpace(c: char) {
    c == ' ' || c == '\t' || c == '\n' || c == '\r' || c == '\U{000B}' || c == '\U{000C}'
  }

  /** \w */
  predicate IsWordChar(c: char) {
    ('a' <= c <= 'z') || ('A' <= c <= 'Z') || ('0' <= c <= '9') || c == '_'
  }

  /** The literal `w` occurs in `s` at position `i`. */
  predicate LitAt(s: string, i: nat, w: string) {
    i + |w| <= |s| && s[i..i + |w|] == w
  }

  /** s[i..j] is a (possibly empty) run of \s. */
  predicate Spaces(s: string, i: nat, j: nat) {
    i <= j <= |s| && forall k :: i <= k < j ==> IsSpace(s[k])
  }

  /** \b at position i. */
  predicate WordBoundary(s: string, i: nat) {
    i <= |s| && ((i > 0 && IsWordChar(s[i - 1])) != (i < |s| && IsWordChar(s[i])))
  }

  /** `\s*\(` starting at i. */
  predicate ParenAfter(s: string, i: nat) {
    exists j :: i <= j < |s| && ParenAt(s, i, j)
  }

  predicate ParenAt(s: string, i: nat, j: nat) {
    Spaces(s, i, j) && j < |s| && s[j] == '('
  }

  /** `\s*=\s*function\s*\(` starting at i. */
  predicate AssignFunctionAfter(s: string, i: nat) {
    exists j, k :: i <= j < k <= |s| && AssignFunctionAt(s, i, j, k)
  }

  predicate AssignFunctionAt(s: string, i: nat, j: nat, k: nat) {
    Spaces(s, i, j) && j < |s| && s[j] == '=' && Spaces(s, j + 1, k) &&
    LitAt(s, k, "function") && ParenAfter(s, k + 8)
  }

  /** 1. `function\s+NAME\s*\(` */
  predicate MatchGlobalFunc(s: string, name: string) {
    exists i, j :: 0 <= i < j <= |s| && GlobalFuncAt(s, name, i, j)
  }

  predicate GlobalFuncAt(s: string, name: string, i: nat, j: nat) {
    LitAt(s, i, "function") && i + 8 < j && Spaces(s, i + 8, j) &&
    LitAt(s, j, name) && ParenAfter(s, j + |name|)
  }

  /** 2. `local\s+function\s+NAME\s*\(` */
  predicate MatchLocalFunc(s: string, name: string) {
    exists i, j, k :: 0 <= i < j < k <= |s| && LocalFuncAt(s, name, i, j, k)
  }

  predicate LocalFuncAt(s: string, name: string, i: nat, j: nat, k: nat) {
    LitAt(s, i, "local") && i + 5 < j && Spaces(s, i + 5, j) && GlobalFuncAt(s, name, j, k)
  }

  /** 3. `\w+\.NAME\s*=\s*function\s*\(` */
  predicate MatchTableFunc(s: string, name: string) {
    exists i, j :: 0 <= i < j < |s| && TableFuncAt(s, name, i, j)
  }

  predicate TableFuncAt(s: string, name: string, i: nat, j: nat) {
    i < j < |s| && (forall m :: i <= m < j ==> IsWordChar(s[m])) && s[j] == '.' &&
    LitAt(s, j + 1, name) && AssignFunctionAfter(s, j + 1 + |name|)
  }

  /** 4. `\bNAME\s*=\s*function\s*\(` */
  predicate MatchVarFunc(s: string, name: string) {
    exists i :: 0 <= i <= |s| && VarFuncAt(s, name, i)
  }

  predicate VarFuncAt(s: string, name: string, i: nat) {
    WordBoundary(s, i) && LitAt(s, i, name) && AssignFunctionAfter(s, i + |name|)
  }

  /** 5. `return\s*\{[^\}]*\bNAME\s*=\s*function\s*\(` */
  predicate MatchReturnTable(s: string, name: string) {
    exists i, j, k :: 0 <= i < j < k <= |s| && ReturnTableAt(s, name, i, j, k)
  }

  predicate ReturnTableAt(s: string, name: string, i: nat, j: nat, k: nat) {
    LitAt(s, i, "return") && Spaces(s, i + 6, j) && j < |s| && s[j] == '{' && j < k <= |s| &&
    (forall m :: j + 1 <= m < k ==> s[m] != '}') && VarFuncAt(s, name, k)
  }

  /** The disjunction the source evaluates. */
  predicate AnyDefinition(s: string, name: string) {
    MatchGlobalFunc(s, name) || MatchLocalFunc(s, name) || MatchTableFunc(s, name) ||
    MatchVarFunc(s, name) || MatchReturnTable(s, name)
  }

  /**
   * False for an empty or missing path, for a file that does not open and
   * when reading or matching throws; otherwise whether one of the five
   * patterns matches the file's text.
   */
  function CheckLuaFunction(fs: FileSystem, modulePath: Path, funcname: string): (r: bool)
    ensures r <==> modulePath != "" && Exists(fs, modulePath) && ReadFile(fs, modulePath).Text? &&
                   AnyDefinition(ReadFile(fs, modulePath).content, funcname)
  {
    if modulePath == "" || !Exists(fs, modulePath) then false
    else match ReadFile(fs, modulePath)
      case OpenFails => false
      case ReadThrows => false
      case Text(content) => AnyDefinition(content, funcname)
  }

  // ---------------------------------------------------------------------
  // What the five patterns amount to

  /** Pattern 2 is pattern 1 with a prefix: a match of it is a match of pattern 1. */
  lemma LocalImpliesGlobal(s: string, name: string)
    requires MatchLocalFunc(s, name)
    ensures MatchGlobalFunc(s, name)
  {
    var i, j, k :| 0 <= i < j < k <= |s| && LocalFuncAt(s, name, i, j, k);
    assert GlobalFuncAt(s, name, j, k);
  }

  /** Pattern 3 ends in pattern 4: the '.' before the name is a word boundary when the name starts with \w. */
  lemma TableImpliesVar(s: string, name: string)
    requires name != [] && IsWordChar(name[0])
    requires MatchTableFunc(s, name)
    ensures MatchVarFunc(s, name)
  {
    var i, j :| 0 <= i < j < |s| && TableFuncAt(s, name, i, j);
    assert s[j + 1] == s[j + 1..j + 1 + |name|][0] == name[0];
    assert WordBoundary(s, j + 1);
    assert VarFuncAt(s, name, j + 1);
  }

  /** Pattern 5 ends in pattern 4. */
  lemma ReturnTableImpliesVar(s: string, name: string)
    requires MatchReturnTable(s, name)
    ensures MatchVarFunc(s, name)
  {
    var i, j, k :| 0 <= i < j < k <= |s| && ReturnTableAt(s, name, i, j, k);
    assert VarFuncAt(s, name, k);
  }

  /** For a name that starts like a Lua identifier, two of the five patterns decide the check. */
  lemma TwoPatternsSuffice(s: string, name: string)
    requires name != [] && IsWordChar(name[0])
    ensures AnyDefinition(s, name) <==> MatchGlobalFunc(s, name) || MatchVarFunc(s, name)
  {
    if MatchLocalFunc(s, name) { LocalImpliesGlobal(s, name); }
    if MatchTableFunc(s, name) { TableImpliesVar(s, name); }
    if MatchReturnTable(s, name) { ReturnTableImpliesVar(s, name); }
  }

  /** Every pattern contains the name literally: a file that never mentions it fails the check. */
  lemma DefinitionMentionsName(s: string, name: string)
    requires AnyDefinition(s, name)
    ensures exists i :: 0 <= i <= |s| && LitAt(s, i, name)
  {
    if MatchLocalFunc(s, name) {
      var i, j, k :| 0 <= i < j < k <= |s| && LocalFuncAt(s, name, i, j, k);
      assert LitAt(s, k, name);
    } else if MatchReturnTable(s, name) {
      var i, j, k :| 0 <= i < j < k <= |s| && ReturnTableAt(s, name, i, j, k);
      assert LitAt(s, k, name);
    } else if MatchGlobalFunc(s, name) {
      var i, j :| 0 <= i < j <= |s| && GlobalFuncAt(s, name, i, j);
      assert LitAt(s, j, name);
    } else if MatchTableFunc(s, name) {
      var i, j :| 0 <= i < j < |s| && TableFuncAt(s, name, i, j);
      assert LitAt(s, j + 1, name);
    } else {
      var i :| 0 <= i <= |s| && VarFuncAt(s, name, i);
      assert LitAt(s, i, name);
    }
  }

  /** "function foo(x) ... end" defines foo. */
  lemma ExampleGlobalDefinition()
    ensures MatchGlobalFunc("function foo(x) return 42 end", "foo")
  {
    var s := "function foo(x) return 42 end";
    assert s[0..8] == "function";
    assert s[9..12] == "foo";
    assert Spaces(s, 8, 9);
    assert ParenAt(s, 12, 12);
    assert GlobalFuncAt(s, "foo", 0, 9);
  }

  /**
   * An empty function name turns pattern 1 into `function\s+\s*\(`, which any
   * anonymous function written "function (" satisfies.
   */
  lemma EmptyNameMatchesAnonymousFunction()
    ensures MatchGlobalFunc("f = function (x) end", "")
  {
    var s := "f = function (x) end";
    assert s[4..12] == "function";
    assert Spaces(s, 12, 13);
    assert s[13..13] == "";
    assert ParenAt(s, 13, 13);
    assert GlobalFuncAt(s, "", 4, 13);
  }
}
