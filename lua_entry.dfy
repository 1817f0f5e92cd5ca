/**
 * GetLuaEntry: splitting "<module>::<function>" the way LuaVM.hpp does it.
 * The search is find_first_of("::"), which looks for the first character
 * that is ANY of ':' and ':', i.e. the first ':'.  Its size_t result is
 * stored in a uint32_t, so "not found" (npos, 2^64 - 1 on a 64-bit target)
 * becomes 2^32 - 1 and `index + 2` wraps to 1; substr throws
 * std::out_of_range when its start is past the end of the string.
 */
module LuaEntry {
  import opened Common

  const TwoTo32: nat := 0x1_0000_0000
  /** std::string::npos on a 64-bit target. */
  const NPos: nat := 0x1_0000_0000_0000_0000 - 1

  datatype Entry = Entry(luaFileName: string, luaFuncName: string)

  /** std::string::substr(pos, count), which throws when pos > size(). */
  function Substr(s: string, pos: nat, count: nat): (r: Result<string>)
    ensures r.Threw? <==> pos > |s|
    ensures r.Returned? ==> r.value == s[pos..Min(pos + count, |s|)]
  {
    if pos > |s| then Threw(OutOfRange) else Returned(s[pos..Min(pos + count, |s|)])
  }

  /** The separator position as the source holds it: find_first_of(':') truncated into a uint32_t. */
  function SeparatorIndex(s: string): (index: nat)
    ensures index < TwoTo32
    ensures ':' !in s ==> index == TwoTo32 - 1
    ensures ':' in s && |s| < TwoTo32 ==> index < |s| && s[index] == ':' && ':' !in s[..index]
  {
    var found := FirstIndexOf(s, ':');
    var pos := if found < |s| then found else NPos;
    pos % TwoTo32
  }

  function GetLuaEntry(funcname: string): (r: Result<Entry>)
    ensures funcname == "" ==> r == Returned(Entry("", ""))
    ensures r.Returned? ==> StartsWith(funcname, r.value.luaFileName)
  {
    if funcname == "" then Returned(Entry("", ""))
    else
      var index := SeparatorIndex(funcname);
      var luaFileName := Substr(funcname, 0, index).value;
      match Substr(funcname, (index + 2) % TwoTo32, NPos)
      case Threw(e) => Threw(e)
      case Returned(luaFuncName) => Returned(Entry(luaFileName, luaFuncName))
  }

  /** "m::f": the module is everything before the first ':' and the two names re-assemble the input. */
  lemma EntryAtDoubleColon(funcname: string)
    requires |funcname| < TwoTo32 - 2 && ':' in funcname
    requires SeparatorIndex(funcname) + 1 < |funcname| && funcname[SeparatorIndex(funcname) + 1] == ':'
    ensures GetLuaEntry(funcname).Returned?
    ensures var e := GetLuaEntry(funcname).value;
            ':' !in e.luaFileName && e.luaFileName + "::" + e.luaFuncName == funcname
    ensures var e := GetLuaEntry(funcname).value;
            e.luaFileName == funcname[..SeparatorIndex(funcname)] &&
            e.luaFuncName == funcname[SeparatorIndex(funcname) + 2..]
  {
    var k := SeparatorIndex(funcname);
    assert (k + 2) % TwoTo32 == k + 2;
    var e := GetLuaEntry(funcname).value;
    assert e.luaFileName == funcname[..k];
    assert e.luaFuncName == funcname[k + 2..];
    assert funcname == funcname[..k] + [funcname[k]] + [funcname[k + 1]] + funcname[k + 2..];
  }

  /** No ':' at all: the module is the whole input and the function name is the input minus its first character. */
  lemma EntryWithoutColon(funcname: string)
    requires funcname != "" && ':' !in funcname && |funcname| < TwoTo32 - 1
    ensures GetLuaEntry(funcname) == Returned(Entry(funcname, funcname[1..]))
  {
    var index := SeparatorIndex(funcname);
    assert index == TwoTo32 - 1;
    assert (index + 2) % TwoTo32 == 1;
    assert Substr(funcname, 0, index).value == funcname[0..|funcname|] == funcname;
    assert Substr(funcname, 1, NPos) == Returned(funcname[1..]);
  }

  /** A first ':' that is the last character makes substr throw std::out_of_range. */
  lemma EntryTrailingColonThrows(funcname: string)
    requires ':' in funcname && |funcname| < TwoTo32 - 1
    requires SeparatorIndex(funcname) == |funcname| - 1
    ensures GetLuaEntry(funcname) == Threw(OutOfRange)
  {
    var k := SeparatorIndex(funcname);
    assert (k + 2) % TwoTo32 == k + 2;
  }

  /** With a lone ':' (not followed by another) one character of the function name is lost. */
  lemma SingleColonDropsACharacter(funcname: string)
    requires |funcname| < TwoTo32 - 2
    requires ':' in funcname
    requires SeparatorIndex(funcname) + 1 < |funcname| && funcname[SeparatorIndex(funcname) + 1] != ':'
    ensures GetLuaEntry(funcname).Returned?
    ensures var e := GetLuaEntry(funcname).value;
            |e.luaFileName| + 2 + |e.luaFuncName| == |funcname| &&
            funcname == e.luaFileName + ":" + [funcname[SeparatorIndex(funcname) + 1]] + e.luaFuncName
  {
    var k := SeparatorIndex(funcname);
    assert (k + 2) % TwoTo32 == k + 2;
    var e := GetLuaEntry(funcname).value;
    assert e.luaFileName == funcname[..k];
    assert e.luaFuncName == funcname[k + 2..];
    assert funcname == funcname[..k] + [funcname[k]] + [funcname[k + 1]] + funcname[k + 2..];
  }

  lemma EntryAtIndex(funcname: string, k: nat)
    requires |funcname| < TwoTo32 - 2 && SeparatorIndex(funcname) == k && k + 2 <= |funcname|
    ensures GetLuaEntry(funcname) == Returned(Entry(funcname[..k], funcname[k + 2..]))
  {
    assert (k + 2) % TwoTo32 == k + 2;
    assert Substr(funcname, 0, k) == Returned(funcname[..k]);
    var r := Substr(funcname, k + 2, NPos);
    assert r.Returned?;
    assert Min(k + 2 + NPos, |funcname|) == |funcname|;
    assert r.value == funcname[k + 2..|funcname|] == funcname[k + 2..];
    assert funcname != "";
  }

  lemma ExampleMainMain()
    ensures GetLuaEntry("main::main") == Returned(Entry("main", "main"))
  {
    MainMainSeparator();
    EntryAtIndex("main::main", 4);
    MainMainHalves();
  }

  lemma MainMainHalves()
    ensures "main::main"[..4] == "main" && "main::main"[6..] == "main"
  {
  }

  lemma MainMainSeparator()
    ensures SeparatorIndex("main::main") == 4
  {
    var s := "main::main";
    assert s[4] == ':' && s[4..][0] == ':';
    assert FirstIndexOf(s[4..], ':') == 0;
    assert s[3..][1..] == s[4..] && s[3] == 'n';
    assert FirstIndexOf(s[3..], ':') == 1;
    assert s[2..][1..] == s[3..] && s[2] == 'i';
    assert FirstIndexOf(s[2..], ':') == 2;
    assert s[1..][1..] == s[2..] && s[1] == 'a';
    assert FirstIndexOf(s[1..], ':') == 3;
    assert s[0] == 'm';
    assert FirstIndexOf(s, ':') == 4;
  }

  lemma ExampleNoSeparator()
    ensures GetLuaEntry("main") == Returned(Entry("main", "ain"))
  {
    EntryWithoutColon("main");
    assert "main"[1..] == "ain";
  }

  lemma ExampleTrailingColon()
    ensures GetLuaEntry("a:") == Threw(OutOfRange)
  {
    assert FirstIndexOf("a:", ':') == 1 by {
      assert "a:"[1..] == ":";
    }
  }
}
