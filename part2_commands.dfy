/**
 * The single-command executors of the flag-driven interpreter
 * (part2/CommandParser.cs): ExecuteCommand, which replays loop and method
 * bodies, and the drawing cases of ExecuteProgram's switch. Each is atomic:
 * the arguments are all read before the one pen operation happens.
 */
module Part2Commands {
  import opened Outcomes
  import opened Text
  import opened Numbers
  import opened Canvas
  import opened Evaluator
  import Syntax

  /** The keywords ExecuteCommand knows. */
  const CommandKeywords: set<string> :=
    {"moveto", "drawto", "clear", "rectangle", "circle", "triangle", "setcolor", "reset", "fill"}

  /** The drawing cases of ExecuteProgram's switch. */
  const DrawKeywords: set<string> := CommandKeywords + {"text"}

  /** Every keyword ExecuteProgram handles before its `default` case. */
  const SwitchKeywords: set<string> :=
    DrawKeywords + {"set", "usevar", "bgcolor", "drawgrid", "if", "endif", "loop", "endloop", "method", "endmethod"}

  /** A line ExecuteProgram sends to its `default` case: captured, called or passed to ExecuteCommand. */
  predicate Unhandled(line: string) {
    Keyword(line) !in SwitchKeywords
  }

  /** An argument read with ParseFloat; reading past the last token is an IndexOutOfRangeException. */
  function Arg(vars: Store, tokens: seq<string>, i: nat): (r: Result<real>)
    ensures i >= |tokens| ==> r == Err(IndexOutOfRange)
    ensures i < |tokens| ==> r == ParseFloat(vars, tokens[i])
  {
    if i < |tokens| then ParseFloat(vars, tokens[i]) else Err(IndexOutOfRange)
  }

  /**
   * What an argument resolves to, on the trimmed token: a literal is its own
   * value even when a variable has that name, any other token the value of
   * the variable it names; a blank token throws.
   */
  lemma ArgValue(vars: Store, tokens: seq<string>, i: nat)
    requires i < |tokens|
    ensures var t := Trim(tokens[i]);
      && (ParseNumber(t).Some? ==> Arg(vars, tokens, i) == Ok(ParseNumber(t).value))
      && (ParseNumber(t).None? && t != "" && t in vars ==> Arg(vars, tokens, i) == Ok(vars[t]))
      && (t == "" ==> Arg(vars, tokens, i) == Err(EmptyInput))
  {
  }

  /**
   * `setcolor name alpha`: Color.FromName(tokens[1]) then int.Parse(tokens[2]),
   * and Color.FromArgb, which rejects an alpha outside 0..255.
   */
  function ColourArg(tokens: seq<string>): (r: Result<Colour>)
    ensures r.Ok? ==> |tokens| >= 3 && r.value.Argb? && r.value.name == tokens[1] && 0 <= r.value.alpha <= 255
    ensures r.Ok? <==> |tokens| >= 3 && ParseInteger(tokens[2]).Some? && 0 <= ParseInteger(tokens[2]).value <= 255
  {
    if |tokens| < 3 then Err(IndexOutOfRange)
    else match ParseInteger(tokens[2])
      case None => Err(FormatError(tokens[2]))
      case Some(alpha) =>
        if 0 <= alpha <= 255 then Ok(Argb(alpha, tokens[1])) else Err(OpacityOutOfRange(alpha))
  }

  /**
   * ExecuteCommand: the raw text split on single spaces (it is not trimmed),
   * the keyword matched case-insensitively, arguments through ParseFloat.
   */
  function ExecuteCommand(vars: Store, s: Surface, text: string): (r: Result<Surface>)
    ensures r.Ok? ==> |s.trace| <= |r.value.trace| && r.value.trace[..|s.trace|] == s.trace
  {
    var tokens := Split(text, ' ');
    var keyword := Lower(tokens[0]);
    if keyword == "moveto" then
      var x :- Arg(vars, tokens, 1);
      var y :- Arg(vars, tokens, 2);
      Ok(MoveTo(s, x, y))
    else if keyword == "drawto" then
      var x :- Arg(vars, tokens, 1);
      var y :- Arg(vars, tokens, 2);
      Ok(DrawTo(s, x, y))
    else if keyword == "clear" then Ok(Clear(s))
    else if keyword == "rectangle" then
      var w :- Arg(vars, tokens, 1);
      var h :- Arg(vars, tokens, 2);
      Ok(DrawRectangle(s, w, h))
    else if keyword == "circle" then
      var radius :- Arg(vars, tokens, 1);
      Ok(DrawCircle(s, radius))
    else if keyword == "triangle" then
      var x1 :- Arg(vars, tokens, 1);
      var y1 :- Arg(vars, tokens, 2);
      var x2 :- Arg(vars, tokens, 3);
      var y2 :- Arg(vars, tokens, 4);
      var x3 :- Arg(vars, tokens, 5);
      var y3 :- Arg(vars, tokens, 6);
      Ok(DrawTriangle(s, x1, y1, x2, y2, x3, y3))
    else if keyword == "setcolor" then
      var c :- ColourArg(tokens);
      Ok(SetPen(s, c))
    else if keyword == "reset" then Ok(ResetPenPosition(s))
    else if keyword == "fill" then
      if |tokens| < 2 then Err(IndexOutOfRange) else Ok(ToggleFill(s, tokens[1]))
    else Err(UnknownCommand(tokens[0]))
  }

  /** Any keyword but the nine throws "Unknown command", naming the raw first token. */
  lemma UnknownKeywordFails(vars: Store, s: Surface, text: string)
    requires Lower(Split(text, ' ')[0]) !in CommandKeywords
    ensures ExecuteCommand(vars, s, text) == Err(UnknownCommand(Split(text, ' ')[0]))
  {
  }

  /**
   * Each line through ExecuteCommand in order, as RepeatLoopBlock and
   * CallMethod do; the first exception ends the replay, and what the earlier
   * lines drew stays drawn.
   */
  function RunCommands(vars: Store, s: Surface, block: seq<string>): (r: Effect<Surface>)
    ensures |s.trace| <= |r.state.trace| && r.state.trace[..|s.trace|] == s.trace
    decreases |block|, 1
  {
    if block == [] then Effect(s, Done) else Continue(vars, s, block)
  }

  /** The first line of a non-empty block through ExecuteCommand, then the rest of it. */
  function Continue(vars: Store, s: Surface, block: seq<string>): (r: Effect<Surface>)
    requires block != []
    ensures |s.trace| <= |r.state.trace| && r.state.trace[..|s.trace|] == s.trace
    decreases |block|, 0
  {
    match ExecuteCommand(vars, s, block[0])
    case Err(e) => Effect(s, Fail(e))
    case Ok(next) => RunCommands(vars, next, block[1..])
  }

  /** A non-empty block runs its first line, then, unless that line threw, the rest. */
  lemma RunCommandsStep(vars: Store, s: Surface, block: seq<string>)
    requires block != []
    ensures var r := ExecuteCommand(vars, s, block[0]);
      RunCommands(vars, s, block) == if r.Err? then Effect(s, Fail(r.error)) else RunCommands(vars, r.value, block[1..])
  {
  }

  /** The circle case of ExecuteProgram: a variable, else float.TryParse, else an exception. */
  function Radius(vars: Store, tokens: seq<string>): (r: Result<real>)
    ensures |tokens| >= 2 && tokens[1] in vars ==> r == Ok(vars[tokens[1]])
  {
    if |tokens| < 2 then Err(IndexOutOfRange)
    else if tokens[1] in vars then Ok(vars[tokens[1]])
    else match ParseNumber(tokens[1])
      case Some(v) => Ok(v)
      case None => Err(Unparsable(tokens[1]))
  }

  /**
   * The drawing cases of ExecuteProgram's switch, on the tokens of the
   * trimmed line: float.Parse for the arguments (only `circle` looks at
   * variables) and `text`, which writes the rest of the line.
   */
  function DrawCommand(vars: Store, s: Surface, tokens: seq<string>, keyword: string): (r: Result<Surface>)
    requires keyword in DrawKeywords && |tokens| >= 1
    ensures r.Ok? ==> |s.trace| <= |r.value.trace| && r.value.trace[..|s.trace|] == s.trace
    ensures keyword == "text" ==> r == Ok(DrawText(s, Join(" ", tokens[1..])))
  {
    if keyword == "moveto" then
      var x :- StrictArg(tokens, 1);
      var y :- StrictArg(tokens, 2);
      Ok(MoveTo(s, x, y))
    else if keyword == "drawto" then
      var x :- StrictArg(tokens, 1);
      var y :- StrictArg(tokens, 2);
      Ok(DrawTo(s, x, y))
    else if keyword == "clear" then Ok(Clear(s))
    else if keyword == "rectangle" then
      var w :- StrictArg(tokens, 1);
      var h :- StrictArg(tokens, 2);
      Ok(DrawRectangle(s, w, h))
    else if keyword == "circle" then
      var radius :- Radius(vars, tokens);
      Ok(DrawCircle(s, radius))
    else if keyword == "triangle" then
      var x1 :- StrictArg(tokens, 1);
      var y1 :- StrictArg(tokens, 2);
      var x2 :- StrictArg(tokens, 3);
      var y2 :- StrictArg(tokens, 4);
      var x3 :- StrictArg(tokens, 5);
      var y3 :- StrictArg(tokens, 6);
      Ok(DrawTriangle(s, x1, y1, x2, y2, x3, y3))
    else if keyword == "setcolor" then
      var c :- ColourArg(tokens);
      Ok(SetPen(s, c))
    else if keyword == "reset" then Ok(ResetPenPosition(s))
    else if keyword == "text" then Ok(DrawText(s, Join(" ", tokens[1..])))
    else if |tokens| < 2 then Err(IndexOutOfRange)
    else Ok(ToggleFill(s, tokens[1]))
  }

  // ---------------------------------------------------------------------
  // Lines that reach ExecuteProgram's default case never execute.

  /**
   * When the raw first token of a line is one of ExecuteCommand's keywords,
   * it is also the first token of the trimmed line: such a line starts with
   * the keyword, and trimming cannot reach into it.
   */
  lemma FirstTokenSurvivesTrim(line: string)
    requires Lower(Split(line, ' ')[0]) in CommandKeywords
    ensures Split(Trim(line), ' ')[0] == Split(line, ' ')[0]
  {
    var token := Split(line, ' ')[0];
    KeywordsAreWords(Lower(token));
    KeywordHasNoWhiteSpace(token);
    SplitAnyPieces(line, {' '});
    assert Avoids(token, {' '});
    LineStartsWithToken(line);
    TrimKeepsToken(line, token);
    FirstPiece(Trim(line), token);
  }

  /** A token that lower-cases to a keyword is non-empty and has no white space in it. */
  lemma KeywordHasNoWhiteSpace(token: string)
    requires Lower(token) != [] && IsWord(Lower(token))
    ensures token != [] && forall i :: 0 <= i < |token| ==> !IsWhiteSpace(token[i])
  {
    LowerShape(token);
    forall i | 0 <= i < |token| ensures !IsWhiteSpace(token[i]) {
      assert Lower(token)[i] == LowerChar(token[i]);
      LetterIsNotWhiteSpace(token[i]);
    }
  }

  /** A character that lower-cases to a letter is not white space. */
  lemma LetterIsNotWhiteSpace(c: char)
    requires 'a' <= LowerChar(c) <= 'z'
    ensures !IsWhiteSpace(c)
  {
  }

  lemma KeywordsAreWords(k: string)
    requires k in CommandKeywords
    ensures k != [] && IsWord(k)
  {
    if k == "moveto" { assert IsWord("moveto"); }
    else if k == "drawto" { assert IsWord("drawto"); }
    else if k == "clear" { assert IsWord("clear"); }
    else if k == "rectangle" { assert IsWord("rectangle"); }
    else if k == "circle" { assert IsWord("circle"); }
    else if k == "triangle" { assert IsWord("triangle"); }
    else if k == "setcolor" { assert IsWord("setcolor"); }
    else if k == "reset" { assert IsWord("reset"); }
    else { assert IsWord("fill"); }
  }

  /** Trimming a line that starts with a non-empty, white-free token keeps the token in front. */
  lemma TrimKeepsToken(line: string, token: string)
    requires token != [] && |token| <= |line| && line[..|token|] == token
    requires forall i :: 0 <= i < |token| ==> !IsWhiteSpace(token[i])
    ensures var t := Trim(line);
      && |token| <= |t| && t[..|token|] == token
      && (|t| == |token| || t[|token|] == line[|token|])
  {
    assert line[0] == token[0];
    assert TrimStart(line) == line;
    TrimEndShape(line);
    assert line[|token| - 1] == token[|token| - 1];
  }

  /** The first piece of a split is everything before the first separator. */
  lemma FirstPiece(t: string, token: string)
    requires Avoids(token, {' '}) && |token| <= |t| && t[..|token|] == token
    requires |t| == |token| || t[|token|] == ' '
    ensures Split(t, ' ')[0] == token
  {
    if |t| == |token| {
      assert t == token;
      SplitWhole(token, {' '});
    } else {
      assert t == token + [' '] + t[|token| + 1..];
      SplitAt(token, ' ', t[|token| + 1..], {' '});
    }
  }

  /**
   * A line that reaches ExecuteProgram's default case is rejected by
   * ExecuteCommand: its raw first token is not one of ExecuteCommand's
   * keywords, because those are all handled by the switch itself.
   */
  lemma UnhandledLineFails(vars: Store, s: Surface, line: string)
    requires Unhandled(line)
    ensures ExecuteCommand(vars, s, line) == Err(UnknownCommand(Split(line, ' ')[0]))
  {
    if Lower(Split(line, ' ')[0]) in CommandKeywords {
      FirstTokenSurvivesTrim(line);
    }
    UnknownKeywordFails(vars, s, line);
  }

  /** Every line of the block reaches ExecuteProgram's default case. */
  predicate AllUnhandled(block: seq<string>) {
    forall k :: 0 <= k < |block| ==> Unhandled(block[k])
  }

  /**
   * Replaying a block of such lines draws nothing and changes nothing: it
   * fails on the first line, or succeeds only when the block is empty.
   */
  lemma ReplayOfUnhandledLines(vars: Store, s: Surface, block: seq<string>)
    requires AllUnhandled(block)
    ensures RunCommands(vars, s, block).state == s
    ensures RunCommands(vars, s, block).outcome
      == if block == [] then Done else Fail(UnknownCommand(Split(block[0], ' ')[0]))
  {
    if block != [] {
      UnhandledLineFails(vars, s, block[0]);
    }
  }

  // ---------------------------------------------------------------------
  // Commands ExecuteCommand runs, and the one the syntax checker accepts but it does not.

  function Reals(args: seq<int>): (r: seq<real>)
    ensures |r| == |args|
    ensures forall k :: 0 <= k < |args| ==> r[k] == args[k] as real
  {
    seq(|args|, k requires 0 <= k < |args| => args[k] as real)
  }

  /**
   * ExecuteCommand on a numeric command written with decimal integers does
   * exactly what the keyword names, with those numbers, whatever the variables.
   */
  lemma NumericCommandsExecute(vars: Store, s: Surface, keyword: string, args: seq<int>)
    requires keyword in {"moveto", "drawto", "rectangle", "triangle", "circle"}
    requires |args| + 1 == Syntax.Arity(keyword)
    ensures ExecuteCommand(vars, s, Syntax.Command([keyword] + Syntax.Shown(args)))
      == Ok(Intended(s, keyword, Reals(args)))
  {
    var tokens := [keyword] + Syntax.Shown(args);
    Syntax.ShownTokens(keyword, args);
    ShownArguments(vars, keyword, args);
    ExecuteWithArguments(vars, s, Syntax.Command(tokens), keyword, Reals(args));
  }

  /** Each printed integer after the keyword resolves to itself, whatever the variables. */
  lemma ShownArguments(vars: Store, keyword: string, args: seq<int>)
    ensures var tokens := [keyword] + Syntax.Shown(args);
      forall k :: 1 <= k < |tokens| ==> Arg(vars, tokens, k) == Ok(Reals(args)[k - 1])
  {
    var tokens := [keyword] + Syntax.Shown(args);
    forall k | 1 <= k < |tokens| ensures Arg(vars, tokens, k) == Ok(Reals(args)[k - 1]) {
      assert tokens[k] == Syntax.Shown(args)[k - 1];
      ShownAt(args, k - 1);
      ParseFloatShowInt(vars, args[k - 1]);
    }
  }

  /** ExecuteCommand on a numeric keyword whose arguments all resolve runs the named operation. */
  lemma ExecuteWithArguments(vars: Store, s: Surface, text: string, keyword: string, a: seq<real>)
    requires keyword in {"moveto", "drawto", "rectangle", "triangle", "circle"}
    requires var tokens := Split(text, ' ');
      && Lower(tokens[0]) == keyword
      && |tokens| >= Syntax.Arity(keyword) == |a| + 1
      && forall k :: 1 <= k < Syntax.Arity(keyword) ==> Arg(vars, tokens, k) == Ok(a[k - 1])
    ensures ExecuteCommand(vars, s, text) == Ok(Intended(s, keyword, a))
  {
    var tokens := Split(text, ' ');
    assert Arg(vars, tokens, 1) == Ok(a[0]);
    if keyword == "moveto" || keyword == "drawto" || keyword == "rectangle" {
      assert Arg(vars, tokens, 2) == Ok(a[1]);
    } else if keyword == "triangle" {
      assert Arg(vars, tokens, 2) == Ok(a[1]);
      assert Arg(vars, tokens, 3) == Ok(a[2]);
      assert Arg(vars, tokens, 4) == Ok(a[3]);
      assert Arg(vars, tokens, 5) == Ok(a[4]);
      assert Arg(vars, tokens, 6) == Ok(a[5]);
    }
  }

  /**
   * A drawing case of ExecuteProgram on a numeric keyword whose arguments
   * all resolve (float.Parse, or the variable-first lookup for `circle`)
   * runs the named operation; tokens past the arity are ignored.
   */
  lemma DrawWithArguments(vars: Store, s: Surface, tokens: seq<string>, keyword: string, a: seq<real>)
    requires keyword in {"moveto", "drawto", "rectangle", "triangle", "circle"}
    requires |tokens| >= Syntax.Arity(keyword) == |a| + 1
    requires keyword == "circle" ==> Radius(vars, tokens) == Ok(a[0])
    requires keyword != "circle" ==> forall k :: 1 <= k < Syntax.Arity(keyword) ==> StrictArg(tokens, k) == Ok(a[k - 1])
    ensures DrawCommand(vars, s, tokens, keyword) == Ok(Intended(s, keyword, a))
  {
    if keyword != "circle" {
      assert StrictArg(tokens, 1) == Ok(a[0]);
      assert StrictArg(tokens, 2) == Ok(a[1]);
      if keyword == "triangle" {
        assert StrictArg(tokens, 3) == Ok(a[2]);
        assert StrictArg(tokens, 4) == Ok(a[3]);
        assert StrictArg(tokens, 5) == Ok(a[4]);
        assert StrictArg(tokens, 6) == Ok(a[5]);
      }
    }
  }

  /**
   * The other drawing cases: `clear` and `reset` always succeed, `setcolor`
   * sets the pen to the colour ColourArg builds or fails as it does, and
   * `fill` toggles the fill on its first argument.
   */
  lemma DrawOtherCommands(vars: Store, s: Surface, tokens: seq<string>)
    requires |tokens| >= 1
    ensures DrawCommand(vars, s, tokens, "clear") == Ok(Clear(s))
    ensures DrawCommand(vars, s, tokens, "reset") == Ok(ResetPenPosition(s))
    ensures ColourArg(tokens).Ok? ==> DrawCommand(vars, s, tokens, "setcolor") == Ok(SetPen(s, ColourArg(tokens).value))
    ensures ColourArg(tokens).Err? ==> DrawCommand(vars, s, tokens, "setcolor") == Err(ColourArg(tokens).error)
    ensures |tokens| >= 2 ==> DrawCommand(vars, s, tokens, "fill") == Ok(ToggleFill(s, tokens[1]))
    ensures |tokens| < 2 ==> DrawCommand(vars, s, tokens, "fill") == Err(IndexOutOfRange)
  {
  }

  lemma {:induction false} ShownAt(args: seq<int>, k: nat)
    requires k < |args|
    ensures Syntax.Shown(args)[k] == ShowInt(args[k])
  {
    if k > 0 {
      ShownAt(args[1..], k - 1);
    }
  }

  /**
   * The syntax checker accepts `color Red`, but neither ExecuteCommand nor
   * ExecuteProgram has a `color` case: ExecuteCommand rejects it.
   */
  lemma ColorPassesCheckButNotExecution(vars: Store, s: Surface, knownColors: set<string>)
    requires "Red" in knownColors
    ensures Syntax.IsValidCommand("color Red", knownColors)
    ensures ExecuteCommand(vars, s, "color Red") == Err(UnknownCommand("color"))
    ensures Unhandled("color Red")
  {
    ColorIsValid(knownColors);
    ColorRejected(vars, s);
    ColorUnhandled();
  }

  lemma ColorIsValid(knownColors: set<string>)
    requires "Red" in knownColors
    ensures Syntax.IsValidCommand("color Red", knownColors)
  {
    ColorTokens();
  }

  lemma ColorRejected(vars: Store, s: Surface)
    ensures ExecuteCommand(vars, s, "color Red") == Err(UnknownCommand("color"))
  {
    ColorTokens();
    assert "color" !in CommandKeywords;
    UnknownKeywordFails(vars, s, "color Red");
  }

  lemma ColorUnhandled()
    ensures Unhandled("color Red")
  {
    ColorTokens();
    assert Keyword("color Red") == "color";
    ColorIsNotSwitchKeyword();
  }

  lemma ColorIsNotSwitchKeyword()
    ensures "color" !in SwitchKeywords
  {
    assert "color" !in CommandKeywords;
    assert "color" != "text";
    assert "color" !in {"set", "usevar", "bgcolor", "drawgrid", "if", "endif", "loop", "endloop", "method", "endmethod"};
  }

  lemma ColorTokens()
    ensures Split("color Red", ' ') == ["color", "Red"]
    ensures Lower("color") == "color"
    ensures Trim("color Red") == "color Red"
  {
    ColorSplit();
    assert IsWord("color");
    LowerWord("color");
    ColorTrim();
  }

  lemma ColorSplit()
    ensures Split("color Red", ' ') == ["color", "Red"]
  {
    var tokens := ["color", "Red"];
    assert ' ' !in "color" && ' ' !in "Red";
    SplitJoin(tokens, ' ');
    assert Join(" ", tokens) == "color Red";
  }

  lemma ColorTrim()
    ensures Trim("color Red") == "color Red"
  {
    assert TrimStart("color Red") == "color Red";
    assert TrimEnd("color Red") == "color Red";
  }
}
