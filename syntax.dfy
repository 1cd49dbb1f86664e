/**
 * The syntax checker shared by both interpreter variants: IsValidCommand
 * decides one command line by its keyword, its exact token count and the
 * shape of its arguments; CheckSyntax stops at the first line it rejects.
 */
module Syntax {
  import opened Outcomes
  import opened Text
  import opened Numbers

  /** The keywords the checker knows. */
  const CheckedKeywords: set<string> :=
    {"moveto", "drawto", "rectangle", "circle", "triangle", "color", "clear", "reset", "fill"}

  /** The number of space-separated tokens, keyword included, a checked keyword takes. */
  function Arity(keyword: string): nat {
    if keyword == "moveto" || keyword == "drawto" then 3
    else if keyword == "rectangle" then 5
    else if keyword == "triangle" then 7
    else if keyword == "circle" || keyword == "color" || keyword == "fill" then 2
    else 1
  }

  /** Every token is accepted by float.TryParse. */
  predicate AllNumeric(tokens: seq<string>) {
    forall i :: 0 <= i < |tokens| ==> ParseNumber(tokens[i]).Some?
  }

  /**
   * IsValidCommand. `knownColors` stands for the names of the KnownColor
   * enumeration, matched case-sensitively as Enum.IsDefined does.
   */
  function IsValidCommand(command: string, knownColors: set<string>): (ok: bool)
    ensures ok ==> var tokens := Split(command, ' ');
      && Lower(tokens[0]) in CheckedKeywords
      && |tokens| == Arity(Lower(tokens[0]))
  {
    var tokens := Split(command, ' ');
    var keyword := Lower(tokens[0]);
    if keyword == "moveto" || keyword == "drawto" then |tokens| == 3 && AllNumeric(tokens[1..])
    else if keyword == "rectangle" then |tokens| == 5 && AllNumeric(tokens[1..])
    else if keyword == "circle" then |tokens| == 2 && ParseNumber(tokens[1]).Some?
    else if keyword == "triangle" then |tokens| == 7 && AllNumeric(tokens[1..])
    else if keyword == "color" then |tokens| == 2 && tokens[1] in knownColors
    else if keyword == "clear" || keyword == "reset" then |tokens| == 1
    else if keyword == "fill" then |tokens| == 2 && (Lower(tokens[1]) == "on" || Lower(tokens[1]) == "off")
    else false
  }

  /**
   * CheckSyntax without its message boxes: the index, among the non-empty
   * lines, of the first line whose trimmed text is rejected, if any.
   */
  method FirstInvalidLine(lines: seq<string>, knownColors: set<string>) returns (r: Option<nat>)
    ensures var commands := RemoveEmpty(lines);
      && (r.None? ==> forall k :: 0 <= k < |commands| ==> IsValidCommand(Trim(commands[k]), knownColors))
      && (r.Some? ==> r.value < |commands| && !IsValidCommand(Trim(commands[r.value]), knownColors))
      && (r.Some? ==> forall k :: 0 <= k < r.value ==> IsValidCommand(Trim(commands[k]), knownColors))
  {
    var commands := RemoveEmpty(lines);
    var i := 0;
    while i < |commands|
      invariant 0 <= i <= |commands|
      invariant forall k :: 0 <= k < i ==> IsValidCommand(Trim(commands[k]), knownColors)
    {
      var valid := IsValidCommand(Trim(commands[i]), knownColors);
      if !valid {
        return Some(i);
      }
      i := i + 1;
    }
    return None;
  }

  // ---------------------------------------------------------------------
  // Commands built from well-formed parts pass the check.

  /** The text of a command: its tokens joined by single spaces. */
  function Command(tokens: seq<string>): string {
    Join(" ", tokens)
  }

  /**
   * A command written as a checked keyword followed by the right number of
   * numeric literals (printed integers) passes the check.
   */
  lemma NumericCommandsAreValid(keyword: string, args: seq<int>, knownColors: set<string>)
    requires keyword in {"moveto", "drawto", "rectangle", "triangle", "circle"}
    requires |args| + 1 == Arity(keyword)
    ensures IsValidCommand(Command([keyword] + Shown(args)), knownColors)
  {
    ShownTokens(keyword, args);
    assert ([keyword] + Shown(args))[1..] == Shown(args);
    ShownNumeric(args);
  }

  /** A checked keyword followed by printed integers splits back into those tokens. */
  lemma ShownTokens(keyword: string, args: seq<int>)
    requires keyword in {"moveto", "drawto", "rectangle", "triangle", "circle"}
    ensures var tokens := [keyword] + Shown(args);
      && Split(Command(tokens), ' ') == tokens
      && Lower(keyword) == keyword
  {
    var tokens := [keyword] + Shown(args);
    ShownHasNoSpaces(args);
    assert forall k :: 0 <= k < |tokens| ==> ' ' !in tokens[k] by {
      forall k | 0 <= k < |tokens| ensures ' ' !in tokens[k] {
        if k > 0 {
          assert tokens[k] == Shown(args)[k - 1];
        }
      }
    }
    SplitJoin(tokens, ' ');
    LowerKeyword(keyword);
  }

  /** The decimal texts of some integers. */
  function Shown(args: seq<int>): (r: seq<string>)
    ensures |r| == |args|
  {
    if args == [] then [] else [ShowInt(args[0])] + Shown(args[1..])
  }

  lemma {:induction false} ShownHasNoSpaces(args: seq<int>)
    ensures forall k :: 0 <= k < |args| ==> ' ' !in Shown(args)[k]
  {
    if args != [] {
      ShownHasNoSpaces(args[1..]);
      ShowIntCharacters(args[0]);
      forall k | 0 <= k < |args| ensures ' ' !in Shown(args)[k] {
        if k > 0 {
          assert Shown(args)[k] == Shown(args[1..])[k - 1];
        }
      }
    }
  }

  lemma {:induction false} ShownNumeric(args: seq<int>)
    ensures AllNumeric(Shown(args))
  {
    if args != [] {
      ShownNumeric(args[1..]);
      ParseNumberShowInt(args[0]);
      forall k | 0 <= k < |args| ensures ParseNumber(Shown(args)[k]).Some? {
        if k > 0 {
          assert Shown(args)[k] == Shown(args[1..])[k - 1];
        }
      }
    }
  }

  /** A printed integer has no space in it. */
  lemma ShowIntCharacters(n: int)
    ensures ' ' !in ShowInt(n)
  {
    var s := ShowInt(n);
    var d := if n < 0 then ShowNat(-n) else ShowNat(n);
    assert AllDigits(d);
    forall i | 0 <= i < |s| ensures s[i] != ' ' {
      if n < 0 && i > 0 {
        assert s[i] == d[i - 1];
      }
    }
  }

  /** The checked keywords are already lower case. */
  lemma LowerKeyword(keyword: string)
    requires keyword in {"moveto", "drawto", "rectangle", "triangle", "circle"}
    ensures Lower(keyword) == keyword
  {
    if keyword == "moveto" { assert IsWord("moveto"); }
    else if keyword == "drawto" { assert IsWord("drawto"); }
    else if keyword == "rectangle" { assert IsWord("rectangle"); }
    else if keyword == "triangle" { assert IsWord("triangle"); }
    else { assert IsWord("circle"); }
    LowerWord(keyword);
  }

  /** Only the exact token count passes: a valid command with one more argument is rejected. */
  lemma ArityIsExact(command: string, knownColors: set<string>)
    requires IsValidCommand(command, knownColors)
    ensures !IsValidCommand(command + " 0", knownColors)
  {
    assert command + " 0" == command + " " + "0";
    ExtendSplit(command, "0");
  }

  /** Appending a space and a token to a string adds exactly one piece to its split. */
  lemma {:induction false} ExtendSplit(s: string, t: string)
    requires ' ' !in t
    ensures Split(s + " " + t, ' ') == Split(s, ' ') + [t]
  {
    JoinSplit(s, ' ');
    var parts := Split(s, ' ');
    SplitAnyPieces(s, {' '});
    assert forall k :: 0 <= k < |parts| ==> Avoids(parts[k], {' '});
    var whole := parts + [t];
    assert forall k :: 0 <= k < |whole| ==> ' ' !in whole[k] by {
      forall k | 0 <= k < |whole| ensures ' ' !in whole[k] {
        if k < |parts| {
          assert Avoids(parts[k], {' '});
        }
      }
    }
    JoinAppend(" ", parts, t);
    SplitJoin(whole, ' ');
  }

  lemma {:induction false} JoinAppend(sep: string, parts: seq<string>, t: string)
    requires |parts| >= 1
    ensures Join(sep, parts + [t]) == Join(sep, parts) + sep + t
  {
    if |parts| == 1 {
      assert (parts + [t])[1..] == [t];
    } else {
      assert (parts + [t])[1..] == parts[1..] + [t];
      JoinAppend(sep, parts[1..], t);
    }
  }
}
