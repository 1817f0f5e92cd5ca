/**
 * The command line of CommandParser.hpp.  args[0] is the program, args[1]
 * the command; from index 2 on, a token starting with '-' is a key that
 * takes the run of following tokens not starting with '-' as its values,
 * and any other token is an argument of the command itself.  The scan's
 * index is left on a key's last value, so that value is processed again
 * as an argument; a key with no value leaves the index where it is.
 */
module Commands {
  import opened Common

  datatype Command = Command(name: string, args: seq<string>, argMap: map<string, seq<string>>)

  /** `t.rfind("-", 0) == 0`. */
  predicate IsDash(t: string) {
    |t| > 0 && t[0] == '-'
  }

  /** The first index from k on that holds a '-' token, or |args|. */
  function RunEnd(args: seq<string>, k: nat): (e: nat)
    requires k <= |args|
    ensures k <= e <= |args|
    ensures forall m :: k <= m < e ==> !IsDash(args[m])
    ensures e < |args| ==> IsDash(args[e])
    decreases |args| - k
  {
    if k == |args| || IsDash(args[k]) then k else RunEnd(args, k + 1)
  }

  /** The values a key at index k collects. */
  function RunValues(args: seq<string>, k: nat): seq<string>
    requires k < |args|
  {
    args[k + 1..RunEnd(args, k + 1)]
  }

  /** Index k holds a value of some key (it follows a key through '-'-free tokens). */
  predicate Owned(args: seq<string>, k: nat)
    decreases k
  {
    2 < k < |args| && !IsDash(args[k]) && (IsDash(args[k - 1]) || Owned(args, k - 1))
  }

  predicate LastOfRun(args: seq<string>, k: nat)
    requires k < |args|
  {
    k + 1 == |args| || IsDash(args[k + 1])
  }

  /** Index k ends up in cmd.args: a free argument, or the last value of a key. */
  predicate Pushed(args: seq<string>, k: nat) {
    2 <= k < |args| && !IsDash(args[k]) && (!Owned(args, k) || LastOfRun(args, k))
  }

  /** The pushed tokens among indices 2..n-1, in order. */
  function Collected(args: seq<string>, n: nat): seq<string>
    requires n <= |args|
    decreases n
  {
    if n <= 2 then [] else Collected(args, n - 1) + (if Pushed(args, n - 1) then [args[n - 1]] else [])
  }

  /** The key map after the keys among indices 2..n-1 have been stored, in order. */
  function Mapped(args: seq<string>, n: nat): map<string, seq<string>>
    requires n <= |args|
    decreases n
  {
    if n <= 2 then map[]
    else
      var m := Mapped(args, n - 1);
      if IsDash(args[n - 1]) then m[args[n - 1] := RunValues(args, n - 1)] else m
  }

  /** Every key is followed by at least one value: exactly the inputs on which the scan ends. */
  predicate NoBareKey(args: seq<string>) {
    forall k :: 2 <= k < |args| && IsDash(args[k]) ==> k + 1 < |args| && !IsDash(args[k + 1])
  }

  method ParseCommand(args: seq<string>) returns (cmd: Command)
    requires |args| >= 2
    requires NoBareKey(args)
    ensures cmd.name == args[1]
    ensures cmd.args == Collected(args, |args|)
    ensures cmd.argMap == Mapped(args, |args|)
  {
    var name := args[1];
    var cmdArgs: seq<string> := [];
    var argMap: map<string, seq<string>> := map[];
    var i := 2;
    var len := |args|;
    while i < len
      invariant 2 <= i <= len
      invariant cmdArgs == Collected(args, i) && argMap == Mapped(args, i)
      invariant i < len && Owned(args, i) ==> LastOfRun(args, i)
      decreases len - i
    {
      if IsDash(args[i]) {
        var key := args[i];
        var values: seq<string> := [];
        ghost var k := i;
        while i + 1 < len && !IsDash(args[i + 1])
          invariant k <= i < len
          invariant values == args[k + 1..i + 1]
          invariant forall m :: k < m <= i ==> Owned(args, m) && !IsDash(args[m])
          decreases len - i
        {
          i := i + 1;
          values := values + [args[i]];
        }
        assert RunEnd(args, k + 1) == i + 1;
        argMap := argMap[key := values];
        MappedSkip(args, k + 1, i);
        forall m | k < m < i ensures !Pushed(args, m) {
          assert !IsDash(args[m + 1]);
        }
        CollectedSkip(args, k, i);
      } else {
        cmdArgs := cmdArgs + [args[i]];
        i := i + 1;
      }
    }
    cmd := Command(name, cmdArgs, argMap);
  }

  lemma {:induction false} MappedSkip(args: seq<string>, a: nat, b: nat)
    requires 2 <= a <= b <= |args|
    requires forall m :: a <= m < b ==> !IsDash(args[m])
    ensures Mapped(args, b) == Mapped(args, a)
    decreases b
  {
    if a < b {
      MappedSkip(args, a, b - 1);
    }
  }

  lemma {:induction false} CollectedSkip(args: seq<string>, a: nat, b: nat)
    requires 2 <= a <= b <= |args|
    requires forall m :: a <= m < b ==> !Pushed(args, m)
    ensures Collected(args, b) == Collected(args, a)
    decreases b
  {
    if a < b {
      CollectedSkip(args, a, b - 1);
    }
  }

  // ---------------------------------------------------------------------
  // What the parse produces

  predicate KeyAt(args: seq<string>, j: nat, key: string) {
    2 <= j < |args| && IsDash(args[j]) && args[j] == key
  }

  /** The keys of the map are exactly the '-' tokens from index 2 on. */
  lemma {:induction false} MappedKeys(args: seq<string>, n: nat, key: string)
    requires n <= |args|
    ensures key in Mapped(args, n) <==> exists j: nat :: j < n && KeyAt(args, j, key)
    decreases n
  {
    if n > 2 {
      MappedKeys(args, n - 1, key);
      if KeyAt(args, n - 1, key) {
        assert key in Mapped(args, n);
      }
    }
  }

  /** A repeated key keeps the values of its last occurrence. */
  lemma {:induction false} MappedLastWins(args: seq<string>, n: nat, j: nat)
    requires n <= |args| && 2 <= j < n && IsDash(args[j])
    requires forall m :: j < m < n ==> args[m] != args[j]
    ensures args[j] in Mapped(args, n) && Mapped(args, n)[args[j]] == RunValues(args, j)
    decreases n
  {
    if j < n - 1 {
      MappedLastWins(args, n - 1, j);
    }
  }

  /** The values of a key are the maximal run of following tokens without '-'. */
  lemma RunValuesMaximal(args: seq<string>, j: nat)
    requires j < |args|
    ensures var v := RunValues(args, j);
            (forall m :: 0 <= m < |v| ==> !IsDash(v[m])) &&
            (j + 1 + |v| == |args| || IsDash(args[j + 1 + |v|]))
  {
  }

  /** The tokens after a key, up to its last value, all count as its values. */
  lemma {:induction false} RunIsOwned(args: seq<string>, j: nat, m: nat)
    requires 2 <= j < |args| && IsDash(args[j])
    requires j < m < RunEnd(args, j + 1)
    ensures Owned(args, m)
    decreases m
  {
    if m > j + 1 {
      RunIsOwned(args, j, m - 1);
    }
  }

  /** A key's last value is also appended to the command's own arguments. */
  lemma LastValueAlsoArgument(args: seq<string>, j: nat)
    requires 2 <= j && j + 1 < |args| && IsDash(args[j]) && !IsDash(args[j + 1])
    ensures Pushed(args, RunEnd(args, j + 1) - 1)
    ensures RunValues(args, j) != [] && RunValues(args, j)[|RunValues(args, j)| - 1] == args[RunEnd(args, j + 1) - 1]
  {
    RunIsOwned(args, j, RunEnd(args, j + 1) - 1);
  }

  /** Every collected argument is a token without '-'. */
  lemma {:induction false} CollectedHasNoKeys(args: seq<string>, n: nat)
    requires n <= |args|
    ensures forall t :: t in Collected(args, n) ==> !IsDash(t)
    decreases n
  {
    if n > 2 {
      CollectedHasNoKeys(args, n - 1);
    }
  }

  /** Without keys, the command's arguments are all tokens after the command and the map is empty. */
  lemma {:induction false} NoKeysAllArguments(args: seq<string>, n: nat)
    requires 2 <= n <= |args|
    requires forall m :: 2 <= m < |args| ==> !IsDash(args[m])
    ensures Collected(args, n) == args[2..n] && Mapped(args, n) == map[]
    decreases n
  {
    if n > 2 {
      NoKeysAllArguments(args, n - 1);
      NoKeysNothingOwned(args, n - 1);
      assert args[2..n] == args[2..n - 1] + [args[n - 1]];
    }
  }

  lemma {:induction false} NoKeysNothingOwned(args: seq<string>, m: nat)
    requires forall k :: 2 <= k < |args| ==> !IsDash(args[k])
    ensures !Owned(args, m)
    decreases m
  {
    if m > 3 {
      NoKeysNothingOwned(args, m - 1);
    }
  }

  lemma ExampleCreate()
    ensures var args := ["luaprofile", "--create", "-m", "vm1", "-w", "dir"];
            Collected(args, |args|) == ["vm1", "dir"] &&
            Mapped(args, |args|) == map["-m" := ["vm1"], "-w" := ["dir"]]
  {
    var args := ["luaprofile", "--create", "-m", "vm1", "-w", "dir"];
    assert IsDash(args[2]) && !IsDash(args[3]) && IsDash(args[4]) && !IsDash(args[5]);
    assert RunEnd(args, 3) == 4 && RunEnd(args, 5) == 6;
    assert Owned(args, 3) && Owned(args, 5);
    assert Pushed(args, 3) && Pushed(args, 5) && !Pushed(args, 2) && !Pushed(args, 4);
    assert RunValues(args, 2) == ["vm1"] && RunValues(args, 4) == ["dir"];
    assert Mapped(args, 3) == map["-m" := ["vm1"]];
    assert Mapped(args, 5) == map["-m" := ["vm1"], "-w" := ["dir"]];
  }

  // ---------------------------------------------------------------------
  // Termination

  /** The scan's index after one pass of the outer loop. */
  function NextIndex(args: seq<string>, i: nat): (next: nat)
    requires i < |args|
  {
    if IsDash(args[i]) then RunEnd(args, i + 1) - 1 else i + 1
  }

  /** A key with a value moves the index onto its last value; a key with none leaves it in place. */
  lemma NextIndexProgress(args: seq<string>, i: nat)
    requires i < |args|
    ensures NextIndex(args, i) == i <==> IsDash(args[i]) && LastOfRun(args, i)
    ensures NextIndex(args, i) != i ==> i < NextIndex(args, i) <= |args|
  {
  }

  /** The index after `steps` passes of the outer loop, starting from 2. */
  function IndexAfter(args: seq<string>, steps: nat): nat
    requires |args| >= 2
    decreases steps
  {
    if steps == 0 then 2
    else
      var i := IndexAfter(args, steps - 1);
      if i < |args| then NextIndex(args, i) else i
  }

  predicate FirstBareKey(args: seq<string>, j: nat) {
    2 <= j < |args| && IsDash(args[j]) && LastOfRun(args, j) &&
    forall k :: 2 <= k < j && IsDash(args[k]) ==> !LastOfRun(args, k)
  }

  lemma {:induction false} ApproachBareKey(args: seq<string>, j: nat, steps: nat)
    requires |args| >= 2 && FirstBareKey(args, j)
    ensures IndexAfter(args, steps) <= j
    ensures IndexAfter(args, steps) >= Min(j, 2 + steps)
    decreases steps
  {
    if steps > 0 {
      ApproachBareKey(args, j, steps - 1);
      var i := IndexAfter(args, steps - 1);
      if i < j && IsDash(args[i]) {
        assert !LastOfRun(args, i);
        assert RunEnd(args, i + 1) <= j;
      }
    }
  }

  lemma {:induction false} StuckAtBareKey(args: seq<string>, j: nat, steps: nat)
    requires |args| >= 2 && FirstBareKey(args, j) && steps >= j
    ensures IndexAfter(args, steps) == j
    decreases steps
  {
    if steps == j {
      ApproachBareKey(args, j, steps);
    } else {
      StuckAtBareKey(args, j, steps - 1);
    }
  }

  /**
   * With a key that has no value the scan reaches it and stays there: the
   * index never gets past it, so the loop does not end.
   */
  lemma BareKeyNeverPassed(args: seq<string>)
    requires |args| >= 2 && !NoBareKey(args)
    ensures exists j :: FirstBareKey(args, j) && forall steps :: steps >= j ==> IndexAfter(args, steps) == j
  {
    var j := FirstBare(args, |args|);
    forall steps | steps >= j ensures IndexAfter(args, steps) == j {
      StuckAtBareKey(args, j, steps);
    }
  }

  /** The first key without a value, found among indices 2..n-1. */
  function FirstBare(args: seq<string>, n: nat): (j: nat)
    requires 2 <= n <= |args|
    requires exists k :: 2 <= k < n && IsDash(args[k]) && LastOfRun(args, k)
    ensures FirstBareKey(args, j) && j < n
    decreases n
  {
    if exists k :: 2 <= k < n - 1 && IsDash(args[k]) && LastOfRun(args, k) then FirstBare(args, n - 1)
    else n - 1
  }

  // ---------------------------------------------------------------------
  // Argument count check and dispatch

  /** throws std::invalid_argument when the number of tokens is not `expected`. */
  function CheckCommandNum(args: seq<string>, expected: int): (r: Result<()>)
    requires |args| != expected ==> |args| >= 2
    ensures r.Returned? <==> |args| == expected
    ensures r.Threw? ==> r.exception.InvalidArgument? && StartsWith(r.exception.what, args[1])
  {
    if |args| != expected then
      if expected == 0 then
        Threw(InvalidArgument(args[1] + " 不接受参数, 请使用 --help 查看帮助信息"))
      else
        Threw(InvalidArgument(args[1] + " 并不支持 " + NatToString(|args| - 2) + " 个参数, 请使用 --help 查看帮助信息"))
    else Returned(())
  }

  /** What was written to standard output, and the exception that escaped, if any. */
  datatype Printed = Printed(stdout: string, thrown: Option<Exception>)

  /**
   * The echo loop: every token followed by a space, then a newline.  The
   * output is at least one character per token plus the newline, it ends
   * with the newline, and it opens with the first token and a space.
   */
  function Echo(args: seq<string>): (r: string)
    ensures |r| >= |args| + 1
    ensures r[|r| - 1] == '\n'
    ensures args != [] ==> StartsWith(r, args[0] + " ")
    decreases |args|
  {
    if args == [] then "\n" else args[0] + " " + Echo(args[1..])
  }

  function ZeroArgCommand(args: seq<string>, banner: string): Printed
    requires |args| >= 2
  {
    match CheckCommandNum(args, 0)
    case Threw(e) => Printed(Echo(args), Some(e))
    case Returned(_) => Printed(Echo(args) + banner, None)
  }

  function CommandParser(args: seq<string>): (r: Printed)
    requires |args| >= 2
    ensures StartsWith(r.stdout, Echo(args))
  {
    if args[1] == "--help" then ZeroArgCommand(args, "Help Say Hello\n")
    else if args[1] == "--version" then ZeroArgCommand(args, "Version Say Hello\n")
    else if args[1] == "--list" then ZeroArgCommand(args, "List Say Hello\n")
    else if args[1] == "--create" || args[1] == "--destroy" || args[1] == "--run" then Printed(Echo(args), None)
    else Printed(Echo(args) + "Unknown command: " + args[1] + "\n", None)
  }

  /** The commands that take no tokens are told so on every invocation: the count includes the program and the command. */
  lemma ZeroArgCommandsAlwaysThrow(args: seq<string>)
    requires |args| >= 2 && args[1] in ["--help", "--version", "--list"]
    ensures CommandParser(args) ==
      Printed(Echo(args), Some(InvalidArgument(args[1] + " 不接受参数, 请使用 --help 查看帮助信息")))
  {
  }

  /** --create, --destroy and --run print nothing beyond the echo. */
  lemma KnownCommandsPrintNothing(args: seq<string>)
    requires |args| >= 2 && (args[1] == "--create" || args[1] == "--destroy" || args[1] == "--run")
    ensures CommandParser(args) == Printed(Echo(args), None)
  {
    assert args[1] != "--help" && args[1] != "--version" && args[1] != "--list";
  }

  /** Any other command is reported unknown, and nothing is thrown. */
  lemma UnknownCommandReported(args: seq<string>)
    requires |args| >= 2 && args[1] !in ["--help", "--version", "--list", "--create", "--destroy", "--run"]
    ensures CommandParser(args) == Printed(Echo(args) + "Unknown command: " + args[1] + "\n", None)
  {
  }

  /** entry(): the argument count, the echo, the dispatch; an escaping exception is reported on stderr. */
  datatype Session = Session(stdout: string, stderr: string, status: int)

  function Entry(argv: seq<string>): (r: Session)
    requires |argv| >= 2
    ensures r.status == 0
    ensures r.stderr != "" <==> CommandParser(argv).thrown.Some?
  {
    var printed := CommandParser(argv);
    var out := "Argc:" + NatToString(|argv|) + "\n" + Echo(argv) + printed.stdout;
    match printed.thrown
    case None => Session(out, "", 0)
    case Some(e) =>
      // CommandParser throws only std::invalid_argument; OutOfRange does not reach here.
      var what := match e case InvalidArgument(w) => w case OutOfRange => "";
      Session(out, "Error: " + what + "\n", 0)
  }
}
