/**
 * The single-command side of the index-jumping interpreter
 * (AES352/CommandParser.cs): its variable store, whose ParseFloat looks a
 * token up as a variable before reading it as a literal, and ExecuteCommand,
 * which the `loop` and `if` cases of ExecuteProgram replay.
 */
module Aes352Commands {
  import opened Outcomes
  import opened Text
  import opened Numbers
  import opened Canvas
  import Evaluator
  import Syntax

  type Store = Evaluator.Store

  /** The keywords ExecuteCommand knows; ExecuteProgram's drawing cases are the same nine. */
  const CommandKeywords: set<string> :=
    {"moveto", "drawto", "clear", "rectangle", "circle", "triangle", "color", "reset", "fill"}

  /** The keywords whose arguments are numbers. */
  const NumericKeywords: set<string> := {"moveto", "drawto", "rectangle", "circle", "triangle"}

  /** ParseFloat: a defined variable first, then float.TryParse, else an exception. */
  function ParseFloat(vars: Store, input: string): Result<real> {
    if input in vars then Ok(vars[input])
    else match ParseNumber(input)
      case Some(v) => Ok(v)
      case None => Err(Unparsable(input))
  }

  /** SetVariable: `name` now holds `value`. */
  function SetVariable(vars: Store, name: string, value: real): (w: Store)
    ensures name in w && w[name] == value
    ensures forall other :: other != name ==> (other in w <==> other in vars)
    ensures forall other :: other != name && other in vars ==> w[other] == vars[other]
  {
    vars[name := value]
  }

  /** An argument read with ParseFloat; reading past the last token is an IndexOutOfRangeException. */
  function Arg(vars: Store, tokens: seq<string>, i: nat): (r: Result<real>)
    ensures i >= |tokens| ==> r == Err(IndexOutOfRange)
    ensures i < |tokens| ==> r == ParseFloat(vars, tokens[i])
  {
    if i < |tokens| then ParseFloat(vars, tokens[i]) else Err(IndexOutOfRange)
  }

  /**
   * What an argument resolves to: a token naming a variable is that
   * variable's value even when it reads as a number, any other token its
   * literal value; a token that is neither throws.
   */
  lemma ArgValue(vars: Store, tokens: seq<string>, i: nat)
    requires i < |tokens|
    ensures tokens[i] in vars ==> Arg(vars, tokens, i) == Ok(vars[tokens[i]])
    ensures tokens[i] !in vars ==> (Arg(vars, tokens, i).Ok? <==> ParseNumber(tokens[i]).Some?)
    ensures tokens[i] !in vars && Arg(vars, tokens, i).Ok? ==> Arg(vars, tokens, i).value == ParseNumber(tokens[i]).value
    ensures Arg(vars, tokens, i).Err? ==> Arg(vars, tokens, i).error == Unparsable(tokens[i])
  {
    ParseFloatResolves(vars, tokens[i]);
  }

  /**
   * ExecuteCommand: the raw text split on single spaces, the keyword matched
   * case-insensitively, numeric arguments through ParseFloat, and
   * Color.FromName for `color`.
   */
  function ExecuteCommand(vars: Store, s: Surface, text: string): (r: Result<Surface>)
    ensures r.Ok? ==> |s.trace| <= |r.value.trace| && r.value.trace[..|s.trace|] == s.trace
  {
    var tokens := Split(text, ' ');
    var keyword := Lower(tokens[0]);
    if keyword == "moveto" then
      var x :- Arg(vars, tokens, 1);
      var y :- Arg(vars, tokens, 2);
      Ok(MoveTo(s, x, y))
    else if keyword == "drawto" then
      var x :- Arg(vars, tokens, 1);
      var y :- Arg(vars, tokens, 2);
      Ok(DrawTo(s, x, y))
    else if keyword == "clear" then Ok(Clear(s))
    else if keyword == "rectangle" then
      var w :- Arg(vars, tokens, 1);
      var h :- Arg(vars, tokens, 2);
      Ok(DrawRectangle(s, w, h))
    else if keyword == "circle" then
      var radius :- Arg(vars, tokens, 1);
      Ok(DrawCircle(s, radius))
    else if keyword == "triangle" then
      var x1 :- Arg(vars, tokens, 1);
      var y1 :- Arg(vars, tokens, 2);
      var x2 :- Arg(vars, tokens, 3);
      var y2 :- Arg(vars, tokens, 4);
      var x3 :- Arg(vars, tokens, 5);
      var y3 :- Arg(vars, tokens, 6);
      Ok(DrawTriangle(s, x1, y1, x2, y2, x3, y3))
    else if keyword == "color" then
      if |tokens| < 2 then Err(IndexOutOfRange) else Ok(SetPen(s, Named(tokens[1])))
    else if keyword == "reset" then Ok(ResetPenPosition(s))
    else if keyword == "fill" then
      if |tokens| < 2 then Err(IndexOutOfRange) else Ok(ToggleFill(s, tokens[1]))
    else Err(UnknownCommand(tokens[0]))
  }

  /** Any keyword but the nine throws "Unknown command", naming the raw first token. */
  lemma UnknownKeywordFails(vars: Store, s: Surface, text: string)
    requires Lower(Split(text, ' ')[0]) !in CommandKeywords
    ensures ExecuteCommand(vars, s, text) == Err(UnknownCommand(Split(text, ' ')[0]))
  {
  }

  /**
   * Each line through ExecuteCommand in order, as the inner `for k` loops of
   * ExecuteProgram do; the first exception ends the run, and what the earlier
   * lines drew stays drawn.
   */
  function RunCommands(vars: Store, s: Surface, block: seq<string>): (r: Effect<Surface>)
    ensures |s.trace| <= |r.state.trace| && r.state.trace[..|s.trace|] == s.trace
    decreases |block|, 1
  {
    if block == [] then Effect(s, Done) else Continue(vars, s, block)
  }

  /** The first line of a non-empty block through ExecuteCommand, then the rest of it. */
  function Continue(vars: Store, s: Surface, block: seq<string>): (r: Effect<Surface>)
    requires block != []
    ensures |s.trace| <= |r.state.trace| && r.state.trace[..|s.trace|] == s.trace
    decreases |block|, 0
  {
    match ExecuteCommand(vars, s, block[0])
    case Err(e) => Effect(s, Fail(e))
    case Ok(next) => RunCommands(vars, next, block[1..])
  }

  /** The `for j < iterations` loop around a block: `count` runs of it, stopping at the first exception. */
  function Repeat(vars: Store, s: Surface, block: seq<string>, count: int): (r: Effect<Surface>)
    ensures count <= 0 ==> r == Effect(s, Done)
    ensures |s.trace| <= |r.state.trace| && r.state.trace[..|s.trace|] == s.trace
    decreases count
  {
    if count <= 0 then Effect(s, Done)
    else
      var e := RunCommands(vars, s, block);
      if e.outcome.Fail? then e else Repeat(vars, e.state, block, count - 1)
  }

  /** The block written out `count` times one after another. */
  function Copies(block: seq<string>, count: nat): (r: seq<string>)
    ensures |r| == count * |block|
  {
    if count == 0 then [] else block + Copies(block, count - 1)
  }

  // ---------------------------------------------------------------------
  // The variable store.

  /**
   * ParseFloat reads a defined variable whatever the token looks like, a
   * literal otherwise, and throws when the token is neither.
   */
  lemma ParseFloatResolves(vars: Store, input: string)
    ensures input in vars ==> ParseFloat(vars, input) == Ok(vars[input])
    ensures input !in vars && ParseNumber(input).Some? ==> ParseFloat(vars, input) == Ok(ParseNumber(input).value)
    ensures input !in vars && ParseNumber(input).None? ==> ParseFloat(vars, input) == Err(Unparsable(input))
  {
  }

  /**
   * A variable wins over a literal: once a variable is named like a number,
   * ParseFloat returns the variable's value and not the number.
   */
  lemma VariableWins(vars: Store, n: int, v: real)
    ensures ParseNumber(ShowInt(n)) == Some(n as real)
    ensures ParseFloat(SetVariable(vars, ShowInt(n), v), ShowInt(n)) == Ok(v)
  {
    ParseNumberShowInt(n);
  }

  /**
   * What SetVariable stores, UseVariable and ParseFloat read back under the
   * same name, whatever the name looks like; other names are untouched.
   */
  lemma SetThenRead(vars: Store, name: string, value: real, other: string)
    requires other != name
    ensures Evaluator.UseVariable(SetVariable(vars, name, value), name) == Ok(value)
    ensures ParseFloat(SetVariable(vars, name, value), name) == Ok(value)
    ensures Evaluator.UseVariable(SetVariable(vars, name, value), other) == Evaluator.UseVariable(vars, other)
  {
  }

  // ---------------------------------------------------------------------
  // Replays.

  /** Running two blocks one after the other is running their concatenation. */
  lemma {:induction false} RunCommandsAppend(vars: Store, s: Surface, first: seq<string>, second: seq<string>)
    ensures var e := RunCommands(vars, s, first);
      RunCommands(vars, s, first + second) == if e.outcome.Fail? then e else RunCommands(vars, e.state, second)
    decreases |first|
  {
    if first == [] {
      assert first + second == second;
    } else {
      assert (first + second)[0] == first[0];
      assert (first + second)[1..] == first[1..] + second;
      match ExecuteCommand(vars, s, first[0])
      case Err(_) =>
      case Ok(next) => RunCommandsAppend(vars, next, first[1..], second);
    }
  }

  /**
   * `count` replays of a block run the lines of `count` copies of it in order,
   * so a non-positive count runs no line at all.
   */
  lemma {:induction false} RepeatRunsCopies(vars: Store, s: Surface, block: seq<string>, count: int)
    ensures count <= 0 ==> Repeat(vars, s, block, count) == Effect(s, Done)
    ensures count >= 0 ==> Repeat(vars, s, block, count) == RunCommands(vars, s, Copies(block, count))
    decreases if count < 0 then 0 else count
  {
    if count > 0 {
      var e := RunCommands(vars, s, block);
      RunCommandsAppend(vars, s, block, Copies(block, count - 1));
      if e.outcome.Done? {
        RepeatRunsCopies(vars, e.state, block, count - 1);
      }
    }
  }

  /** Replaying `a` times and then `b` more times is replaying `a + b` times. */
  lemma {:induction false} RepeatAdds(vars: Store, s: Surface, block: seq<string>, a: nat, b: nat)
    ensures var e := Repeat(vars, s, block, a);
      Repeat(vars, s, block, a + b) == if e.outcome.Fail? then e else Repeat(vars, e.state, block, b)
    decreases a
  {
    if a > 0 {
      var e := RunCommands(vars, s, block);
      if e.outcome.Done? {
        RepeatAdds(vars, e.state, block, a - 1, b);
      }
    }
  }

  // ---------------------------------------------------------------------
  // The syntax checker and ExecuteCommand.

  /**
   * Every command the syntax checker accepts executes without an exception,
   * whatever the variables and the surface: the checker demands at least the
   * tokens ExecuteCommand reads, and every numeric one is a literal.
   */
  lemma ValidCommandsExecute(vars: Store, s: Surface, command: string, knownColors: set<string>)
    requires Syntax.IsValidCommand(command, knownColors)
    ensures ExecuteCommand(vars, s, command).Ok?
  {
    var tokens := Split(command, ' ');
    ValidArguments(command, knownColors);
    if Lower(tokens[0]) in NumericKeywords {
      LiteralsResolve(vars, tokens);
    }
    ResolvedArgumentsExecute(vars, s, command);
  }

  /** What the checker demands of a command's tokens. */
  lemma ValidArguments(command: string, knownColors: set<string>)
    requires Syntax.IsValidCommand(command, knownColors)
    ensures var tokens := Split(command, ' ');
      && Lower(tokens[0]) in CommandKeywords
      && |tokens| == Syntax.Arity(Lower(tokens[0]))
      && (Lower(tokens[0]) in NumericKeywords ==> Syntax.AllNumeric(tokens[1..]))
  {
    var tokens := Split(command, ' ');
    if Lower(tokens[0]) == "circle" {
      assert tokens[1..][0] == tokens[1];
    }
  }

  /** ExecuteCommand runs any of its keywords given as many tokens as the checker demands, all of them resolving. */
  lemma ResolvedArgumentsExecute(vars: Store, s: Surface, command: string)
    requires var tokens := Split(command, ' ');
      && Lower(tokens[0]) in CommandKeywords
      && |tokens| == Syntax.Arity(Lower(tokens[0]))
      && (Lower(tokens[0]) in NumericKeywords ==> forall k :: 1 <= k < |tokens| ==> Arg(vars, tokens, k).Ok?)
    ensures ExecuteCommand(vars, s, command).Ok?
  {
  }

  /**
   * ExecuteCommand on a numeric keyword whose arguments all resolve runs the
   * named operation on them; tokens past the arity are ignored.
   */
  lemma ExecuteWithArguments(vars: Store, s: Surface, text: string, keyword: string, a: seq<real>)
    requires keyword in NumericKeywords
    requires var tokens := Split(text, ' ');
      && Lower(tokens[0]) == keyword
      && |tokens| >= Syntax.Arity(keyword) == |a| + 1
      && forall k :: 1 <= k < Syntax.Arity(keyword) ==> Arg(vars, tokens, k) == Ok(a[k - 1])
    ensures ExecuteCommand(vars, s, text) == Ok(Intended(s, keyword, a))
  {
    var tokens := Split(text, ' ');
    assert Arg(vars, tokens, 1) == Ok(a[0]);
    if keyword != "circle" {
      assert Arg(vars, tokens, 2) == Ok(a[1]);
      if keyword == "triangle" {
        assert Arg(vars, tokens, 3) == Ok(a[2]);
        assert Arg(vars, tokens, 4) == Ok(a[3]);
        assert Arg(vars, tokens, 5) == Ok(a[4]);
        assert Arg(vars, tokens, 6) == Ok(a[5]);
      }
    }
  }

  /**
   * The other keywords: `clear` and `reset` always succeed, `color` sets the
   * pen to the colour named by the first argument and `fill` toggles the
   * fill on it, each throwing when that argument is missing.
   */
  lemma ExecuteOtherCommands(vars: Store, s: Surface, text: string)
    ensures var tokens := Split(text, ' ');
      var keyword := Lower(tokens[0]);
      && (keyword == "clear" ==> ExecuteCommand(vars, s, text) == Ok(Clear(s)))
      && (keyword == "reset" ==> ExecuteCommand(vars, s, text) == Ok(ResetPenPosition(s)))
      && (keyword == "color" && |tokens| >= 2 ==> ExecuteCommand(vars, s, text) == Ok(SetPen(s, Named(tokens[1]))))
      && (keyword == "fill" && |tokens| >= 2 ==> ExecuteCommand(vars, s, text) == Ok(ToggleFill(s, tokens[1])))
      && (keyword in {"color", "fill"} && |tokens| < 2 ==> ExecuteCommand(vars, s, text) == Err(IndexOutOfRange))
  {
  }

  /** Arguments float.TryParse accepts always resolve, whatever the variables hold. */
  lemma LiteralsResolve(vars: Store, tokens: seq<string>)
    requires |tokens| >= 1 && Syntax.AllNumeric(tokens[1..])
    ensures forall k :: 1 <= k < |tokens| ==> Arg(vars, tokens, k).Ok?
  {
    forall k | 1 <= k < |tokens| ensures Arg(vars, tokens, k).Ok? {
      assert tokens[1..][k - 1] == tokens[k];
    }
  }

  /**
   * The converse fails: the checker demands five tokens for `rectangle`
   * while ExecuteCommand reads two arguments, so `rectangle w h` draws
   * but is reported as a syntax error.
   */
  lemma RectangleArityDiffers(vars: Store, s: Surface, w: int, h: int, knownColors: set<string>)
    requires ShowInt(w) !in vars && ShowInt(h) !in vars
    ensures var command := Syntax.Command(["rectangle", ShowInt(w), ShowInt(h)]);
      && !Syntax.IsValidCommand(command, knownColors)
      && ExecuteCommand(vars, s, command) == Ok(DrawRectangle(s, w as real, h as real))
  {
    RectangleRejected(w, h, knownColors);
    RectangleDraws(vars, s, w, h);
  }

  /** The checker wants five tokens for `rectangle`, so `rectangle w h` is rejected. */
  lemma RectangleRejected(w: int, h: int, knownColors: set<string>)
    ensures !Syntax.IsValidCommand(Syntax.Command(["rectangle", ShowInt(w), ShowInt(h)]), knownColors)
  {
    RectangleTokens(w, h);
  }

  /** ExecuteCommand reads two arguments for `rectangle`, so `rectangle w h` draws a w by h rectangle. */
  lemma RectangleDraws(vars: Store, s: Surface, w: int, h: int)
    requires ShowInt(w) !in vars && ShowInt(h) !in vars
    ensures ExecuteCommand(vars, s, Syntax.Command(["rectangle", ShowInt(w), ShowInt(h)]))
      == Ok(DrawRectangle(s, w as real, h as real))
  {
    var tokens := ["rectangle", ShowInt(w), ShowInt(h)];
    RectangleTokens(w, h);
    ArgShowInt(vars, tokens, 1, w);
    ArgShowInt(vars, tokens, 2, h);
    RectangleCase(vars, s, Syntax.Command(tokens), w as real, h as real);
  }

  /** A printed integer that names no variable resolves to itself. */
  lemma ArgShowInt(vars: Store, tokens: seq<string>, k: nat, n: int)
    requires k < |tokens| && tokens[k] == ShowInt(n) && ShowInt(n) !in vars
    ensures Arg(vars, tokens, k) == Ok(n as real)
  {
    ParseNumberShowInt(n);
  }

  /** `rectangle` with two arguments that resolve draws a rectangle of that size. */
  lemma RectangleCase(vars: Store, s: Surface, text: string, width: real, height: real)
    requires var tokens := Split(text, ' ');
      && Lower(tokens[0]) == "rectangle"
      && Arg(vars, tokens, 1) == Ok(width) && Arg(vars, tokens, 2) == Ok(height)
    ensures ExecuteCommand(vars, s, text) == Ok(DrawRectangle(s, width, height))
  {
  }

  /** `rectangle w h` splits back into its three tokens, the keyword already lower-case. */
  lemma RectangleTokens(w: int, h: int)
    ensures var tokens := ["rectangle", ShowInt(w), ShowInt(h)];
      && Split(Syntax.Command(tokens), ' ') == tokens
      && Lower(tokens[0]) == "rectangle"
  {
    Syntax.ShowIntCharacters(w);
    Syntax.ShowIntCharacters(h);
    SplitJoin(["rectangle", ShowInt(w), ShowInt(h)], ' ');
    Syntax.LowerKeyword("rectangle");
  }

}
