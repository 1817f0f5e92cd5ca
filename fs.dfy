/**
 * An abstract std::filesystem: what kind of object each path names, what
 * reading a file yields, and what a recursive directory walk produces.
 * Path composition and decomposition follow the POSIX rules of
 * std::filesystem::path.
 */
module Fs {
  import opened Common

  type Path = string

  datatype Kind = RegularFile | Directory | OtherKind

  /** The outcome of opening a file with std::ifstream and reading it whole. */
  datatype ReadResult =
    | Text(content: string)
    | OpenFails      // the stream does not open
    | ReadThrows     // a std::exception is raised while reading or matching

  /**
   * A recursive_directory_iterator run: the entries it yields, in traversal
   * order, and whether it throws once they are exhausted (a throw in the
   * middle of a walk is a walk whose `entries` stop at that point).
   */
  datatype Walk = Walk(entries: seq<Path>, throwsAtEnd: bool)

  datatype FileSystem = FileSystem(
    kinds: map<Path, Kind>,
    texts: map<Path, ReadResult>,
    walks: map<Path, Walk>)

  /** std::filesystem::exists; the empty path names nothing. */
  predicate Exists(fs: FileSystem, p: Path) {
    p != "" && p in fs.kinds
  }

  predicate IsDirectory(fs: FileSystem, p: Path) {
    Exists(fs, p) && fs.kinds[p] == Directory
  }

  predicate IsRegularFile(fs: FileSystem, p: Path) {
    Exists(fs, p) && fs.kinds[p] == RegularFile
  }

  function ReadFile(fs: FileSystem, p: Path): ReadResult {
    if p in fs.texts then fs.texts[p] else OpenFails
  }

  function WalkOf(fs: FileSystem, root: Path): Walk {
    if root in fs.walks then fs.walks[root] else Walk([], false)
  }

  predicate IsAbsolute(p: Path) {
    p != [] && p[0] == '/'
  }

  /** `p / q`: an absolute `q` replaces `p`; otherwise a separator is added when `p` ends in a file name. */
  function JoinPath(p: Path, q: Path): (r: Path)
    ensures IsAbsolute(q) ==> r == q
    ensures !IsAbsolute(q) ==> StartsWith(r, p) && |q| <= |r| && r[|r| - |q|..] == q
  {
    if IsAbsolute(q) then q
    else if p != [] && p[|p| - 1] != '/' then p + "/" + q
    else p + q
  }

  /** A path that names a directory without a trailing separator (or is the root). */
  predicate IsPlainDirPath(p: Path) {
    p != [] && (p == "/" || p[|p| - 1] != '/')
  }

  /** One path element: non-empty and free of separators. */
  predicate IsComponent(q: Path) {
    q != [] && '/' !in q
  }

  function TrimTrailingSlashes(s: string): (r: string)
    ensures StartsWith(s, r)
    ensures r == [] || r[|r| - 1] != '/'
  {
    if s != [] && s[|s| - 1] == '/' then TrimTrailingSlashes(s[..|s| - 1]) else s
  }

  /** path::parent_path(): drop the last element and the separators before it, keeping the root. */
  function ParentPath(p: Path): Path {
    match LastIndexOf(p, '/')
    case None => ""
    case Some(k) =>
      var head := TrimTrailingSlashes(p[..k]);
      if head == [] then "/" else head
  }

  /** path::filename(): the text after the last separator. */
  function Filename(p: Path): (r: string)
    ensures '/' !in r
  {
    match LastIndexOf(p, '/')
    case None => p
    case Some(k) => p[k + 1..]
  }

  /** path::stem(): the file name without its last extension; "..", "." and dot-files keep their name. */
  function Stem(f: string): string {
    if f == ".." then f
    else match LastIndexOf(f, '.')
      case None => f
      case Some(k) => if k == 0 then f else f[..k]
  }

  /** Appending one element to a directory path and taking the parent gives the directory back. */
  lemma ParentOfJoin(p: Path, q: Path)
    requires IsPlainDirPath(p) && IsComponent(q)
    ensures ParentPath(JoinPath(p, q)) == p
    ensures Filename(JoinPath(p, q)) == q
  {
    if p == "/" {
      RootJoin(q);
    } else {
      PlainJoin(p, q);
    }
  }

  lemma RootJoin(q: Path)
    requires IsComponent(q)
    ensures ParentPath(JoinPath("/", q)) == "/"
    ensures Filename(JoinPath("/", q)) == q
  {
    var r := [] + ['/'] + q;
    assert JoinPath("/", q) == r;
    LastIndexOfAppend([], '/', q);
    assert LastIndexOf(r, '/') == Some(0);
    assert TrimTrailingSlashes(r[..0]) == [];
    assert r[1..] == q;
  }

  lemma PlainJoin(p: Path, q: Path)
    requires p != [] && p[|p| - 1] != '/' && IsComponent(q)
    ensures ParentPath(JoinPath(p, q)) == p
    ensures Filename(JoinPath(p, q)) == q
  {
    var r := p + ['/'] + q;
    assert JoinPath(p, q) == r;
    LastIndexOfAppend(p, '/', q);
    assert r[..|p|] == p;
    assert r[|p| + 1..] == q;
  }

  /** A module file "name.lua" has stem "name". */
  lemma StemOfLuaFile(name: string)
    requires name != []
    ensures Stem(name + ".lua") == name
  {
    var f := name + ".lua";
    assert f == name + ['.'] + "lua";
    LastIndexOfAppend(name, '.', "lua");
    assert f[..|name|] == name;
  }
}
