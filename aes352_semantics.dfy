/**
 * ExecuteProgram of the index-jumping interpreter (AES352/CommandParser.cs)
 * as functions: the effect of the line at index i and the index the loop
 * variable holds when the case is over, and the run of the whole program.
 *
 * The `loop` and `if` cases call FindEndLoopIndex, FindEndIfIndex and
 * EvaluateCondition, which this file does not define; they are composed
 * here with the definitions from part2/CommandParser.cs (Blocks.MatchingEnd
 * and Evaluator.EvaluateCondition), exactly as the call sites pass them
 * their arguments.
 */
module Aes352Semantics {
  import opened Outcomes
  import opened Text
  import opened Numbers
  import opened Canvas
  import opened Blocks
  import Evaluator
  import opened Aes352Commands
  import Syntax

  /** The fields ExecuteProgram reads and writes: the variables and the drawing. */
  datatype Machine = Machine(vars: Store, surface: Surface)

  /** A freshly constructed interpreter. */
  const Fresh: Machine := Machine(map[], Initial)

  /**
   * What one pass of the `for` body leaves: the state and how the case
   * ended, and the value of `i` before the loop's `i++`.
   */
  datatype Step = Step(effect: Effect<Machine>, last: nat)

  /** The drawing cases of the switch, with float.Parse for the numbers. */
  function DrawLine(s: Surface, parts: seq<string>, keyword: string): (r: Result<Surface>)
    requires keyword in CommandKeywords && |parts| >= 1
    ensures r.Ok? ==> |s.trace| <= |r.value.trace| && r.value.trace[..|s.trace|] == s.trace
  {
    if keyword == "moveto" then
      var x :- StrictArg(parts, 1);
      var y :- StrictArg(parts, 2);
      Ok(MoveTo(s, x, y))
    else if keyword == "drawto" then
      var x :- StrictArg(parts, 1);
      var y :- StrictArg(parts, 2);
      Ok(DrawTo(s, x, y))
    else if keyword == "clear" then Ok(Clear(s))
    else if keyword == "rectangle" then
      var w :- StrictArg(parts, 1);
      var h :- StrictArg(parts, 2);
      Ok(DrawRectangle(s, w, h))
    else if keyword == "circle" then
      var radius :- StrictArg(parts, 1);
      Ok(DrawCircle(s, radius))
    else if keyword == "triangle" then
      var x1 :- StrictArg(parts, 1);
      var y1 :- StrictArg(parts, 2);
      var x2 :- StrictArg(parts, 3);
      var y2 :- StrictArg(parts, 4);
      var x3 :- StrictArg(parts, 5);
      var y3 :- StrictArg(parts, 6);
      Ok(DrawTriangle(s, x1, y1, x2, y2, x3, y3))
    else if keyword == "color" then
      if |parts| < 2 then Err(IndexOutOfRange) else Ok(SetPen(s, Named(parts[1])))
    else if keyword == "reset" then Ok(ResetPenPosition(s))
    else if |parts| < 2 then Err(IndexOutOfRange)
    else Ok(ToggleFill(s, parts[1]))
  }

  /**
   * A drawing case on a numeric keyword whose arguments float.Parse accepts
   * runs the named operation on them; tokens past the arity are ignored.
   */
  lemma DrawWithArguments(s: Surface, parts: seq<string>, keyword: string, a: seq<real>)
    requires keyword in NumericKeywords
    requires |parts| >= Syntax.Arity(keyword) == |a| + 1
    requires forall k :: 1 <= k < Syntax.Arity(keyword) ==> StrictArg(parts, k) == Ok(a[k - 1])
    ensures DrawLine(s, parts, keyword) == Ok(Intended(s, keyword, a))
  {
    assert StrictArg(parts, 1) == Ok(a[0]);
    if keyword != "circle" {
      assert StrictArg(parts, 2) == Ok(a[1]);
      if keyword == "triangle" {
        assert StrictArg(parts, 3) == Ok(a[2]);
        assert StrictArg(parts, 4) == Ok(a[3]);
        assert StrictArg(parts, 5) == Ok(a[4]);
        assert StrictArg(parts, 6) == Ok(a[5]);
      }
    }
  }

  /**
   * The drawing cases do what ExecuteCommand does with the same tokens when
   * no argument names a variable: they succeed together, on the same
   * drawing (only the exception raised on a bad number differs).
   */
  lemma DrawLineAgreesWithExecuteCommand(vars: Store, s: Surface, text: string)
    requires Lower(Split(text, ' ')[0]) in CommandKeywords
    requires forall k :: 1 <= k < |Split(text, ' ')| ==> Split(text, ' ')[k] !in vars
    ensures var parts := Split(text, ' ');
      && (DrawLine(s, parts, Lower(parts[0])).Ok? <==> ExecuteCommand(vars, s, text).Ok?)
      && (DrawLine(s, parts, Lower(parts[0])).Ok? ==>
            DrawLine(s, parts, Lower(parts[0])).value == ExecuteCommand(vars, s, text).value)
  {
    var parts := Split(text, ' ');
    var keyword := Lower(parts[0]);
    forall k | 1 <= k < 7 ensures ReadAlike(vars, parts, k) {
      if k < |parts| {
        ArgValue(vars, parts, k);
      }
    }
    if keyword == "triangle" {
      TriangleAgrees(vars, s, text);
    } else if keyword == "circle" {
      CircleAgrees(vars, s, text);
    } else if keyword in {"moveto", "drawto", "rectangle"} {
      PairAgrees(vars, s, text, keyword);
    } else {
      ExecuteOtherCommands(vars, s, text);
      DrawOtherCommands(s, parts);
    }
  }

  /** float.Parse and ParseFloat read argument k alike: they succeed together, on the same value. */
  predicate ReadAlike(vars: Store, parts: seq<string>, k: nat) {
    && (StrictArg(parts, k).Ok? <==> Arg(vars, parts, k).Ok?)
    && (StrictArg(parts, k).Ok? ==> StrictArg(parts, k).value == Arg(vars, parts, k).value)
  }

  lemma PairAgrees(vars: Store, s: Surface, text: string, keyword: string)
    requires keyword in {"moveto", "drawto", "rectangle"} && Lower(Split(text, ' ')[0]) == keyword
    requires ReadAlike(vars, Split(text, ' '), 1) && ReadAlike(vars, Split(text, ' '), 2)
    ensures var parts := Split(text, ' ');
      && (DrawLine(s, parts, keyword).Ok? <==> ExecuteCommand(vars, s, text).Ok?)
      && (DrawLine(s, parts, keyword).Ok? ==> DrawLine(s, parts, keyword).value == ExecuteCommand(vars, s, text).value)
  {
  }

  lemma CircleAgrees(vars: Store, s: Surface, text: string)
    requires Lower(Split(text, ' ')[0]) == "circle"
    requires ReadAlike(vars, Split(text, ' '), 1)
    ensures var parts := Split(text, ' ');
      && (DrawLine(s, parts, "circle").Ok? <==> ExecuteCommand(vars, s, text).Ok?)
      && (DrawLine(s, parts, "circle").Ok? ==> DrawLine(s, parts, "circle").value == ExecuteCommand(vars, s, text).value)
  {
  }

  lemma TriangleAgrees(vars: Store, s: Surface, text: string)
    requires Lower(Split(text, ' ')[0]) == "triangle"
    requires forall k :: 1 <= k < 7 ==> ReadAlike(vars, Split(text, ' '), k)
    ensures var parts := Split(text, ' ');
      && (DrawLine(s, parts, "triangle").Ok? <==> ExecuteCommand(vars, s, text).Ok?)
      && (DrawLine(s, parts, "triangle").Ok? ==> DrawLine(s, parts, "triangle").value == ExecuteCommand(vars, s, text).value)
  {
    var parts := Split(text, ' ');
    assert ReadAlike(vars, parts, 1) && ReadAlike(vars, parts, 2) && ReadAlike(vars, parts, 3);
    assert ReadAlike(vars, parts, 4) && ReadAlike(vars, parts, 5) && ReadAlike(vars, parts, 6);
  }

  /**
   * The other drawing cases: `clear` and `reset` always succeed, `color`
   * sets the pen to the named colour and `fill` toggles the fill, each
   * throwing when its argument is missing.
   */
  lemma DrawOtherCommands(s: Surface, parts: seq<string>)
    requires |parts| >= 1
    ensures DrawLine(s, parts, "clear") == Ok(Clear(s))
    ensures DrawLine(s, parts, "reset") == Ok(ResetPenPosition(s))
    ensures |parts| >= 2 ==> DrawLine(s, parts, "color") == Ok(SetPen(s, Named(parts[1])))
    ensures |parts| >= 2 ==> DrawLine(s, parts, "fill") == Ok(ToggleFill(s, parts[1]))
    ensures |parts| < 2 ==> DrawLine(s, parts, "color") == Err(IndexOutOfRange)
    ensures |parts| < 2 ==> DrawLine(s, parts, "fill") == Err(IndexOutOfRange)
  {
  }

  /** `set name value`: SetVariable(parts[1], ParseFloat(parts[2])). */
  function SetLine(vars: Store, parts: seq<string>): (r: Result<Store>)
    ensures r.Ok? <==> |parts| >= 3 && ParseFloat(vars, parts[2]).Ok?
    ensures r.Ok? ==> r.value == SetVariable(vars, parts[1], ParseFloat(vars, parts[2]).value)
  {
    if |parts| < 3 then Err(IndexOutOfRange)
    else
      var value :- ParseFloat(vars, parts[2]);
      Ok(SetVariable(vars, parts[1], value))
  }

  /** `usevar name`: UseVariable, whose value is dropped. */
  function UseLine(vars: Store, parts: seq<string>): (r: Outcome)
    ensures r == Done <==> |parts| >= 2 && parts[1] in vars
  {
    if |parts| < 2 then Fail(IndexOutOfRange)
    else match Evaluator.UseVariable(vars, parts[1])
      case Ok(_) => Done
      case Err(e) => Fail(e)
  }

  /** The lines the inner `for k` loop visits: strictly between index i and index end. */
  function Between(lines: seq<string>, i: nat, end: nat): (r: seq<string>)
    ensures i < end <= |lines| ==> r == lines[i + 1..end]
  {
    if i < end <= |lines| then lines[i + 1..end] else []
  }

  /**
   * `loop n`: the count through ParseFloat and the `(int)` cast, the end
   * found by FindEndLoopIndex(lines, i), the lines between replayed through
   * ExecuteCommand that many times, and `i` set to the end.
   */
  function LoopLine(m: Machine, lines: seq<string>, i: nat, parts: seq<string>): (r: Step)
    ensures r.effect.state.vars == m.vars
    ensures r.effect.outcome.Done? ==> MatchingEnd(LoopMarker, lines, i) == Some(r.last)
  {
    if |parts| < 2 then Step(Effect(m, Fail(IndexOutOfRange)), i)
    else match ParseFloat(m.vars, parts[1])
      case Err(e) => Step(Effect(m, Fail(e)), i)
      case Ok(count) =>
        match MatchingEnd(LoopMarker, lines, i)
        case None => Step(Effect(m, Fail(NoMatchingEnd(i))), i)
        case Some(end) =>
          var e := Repeat(m.vars, m.surface, Between(lines, i, end), Truncate(count));
          Step(Effect(m.(surface := e.state), e.outcome), end)
  }

  /**
   * `if c`: EvaluateCondition(parts[1]), the end found by
   * FindEndIfIndex(lines, i), the lines between run once when the condition
   * holds, and `i` set to the end.
   */
  function IfLine(m: Machine, lines: seq<string>, i: nat, parts: seq<string>): (r: Step)
    ensures r.effect.state.vars == m.vars
    ensures r.effect.outcome.Done? ==> MatchingEnd(IfMarker, lines, i) == Some(r.last)
  {
    if |parts| < 2 then Step(Effect(m, Fail(IndexOutOfRange)), i)
    else match Evaluator.EvaluateCondition(m.vars, parts[1])
      case Err(e) => Step(Effect(m, Fail(e)), i)
      case Ok(holds) =>
        match MatchingEnd(IfMarker, lines, i)
        case None => Step(Effect(m, Fail(NoMatchingEnd(i))), i)
        case Some(end) =>
          if holds then
            var e := RunCommands(m.vars, m.surface, Between(lines, i, end));
            Step(Effect(m.(surface := e.state), e.outcome), end)
          else Step(Effect(m, Done), end)
  }

  /** The groups of the switch. */
  datatype Case = Draws | Assigns | Reads | Loops | Branches | Unknown

  function CaseOf(keyword: string): Case {
    if keyword in CommandKeywords then Draws
    else if keyword == "set" then Assigns
    else if keyword == "usevar" then Reads
    else if keyword == "loop" then Loops
    else if keyword == "if" then Branches
    else Unknown
  }

  /** Which keywords each group holds. */
  lemma CaseOfShape(keyword: string)
    ensures CaseOf(keyword) == Draws <==> keyword in CommandKeywords
    ensures CaseOf(keyword) == Assigns <==> keyword == "set"
    ensures CaseOf(keyword) == Reads <==> keyword == "usevar"
    ensures CaseOf(keyword) == Loops <==> keyword == "loop"
    ensures CaseOf(keyword) == Branches <==> keyword == "if"
    ensures CaseOf(keyword) == Unknown <==>
      keyword !in CommandKeywords + {"set", "usevar", "loop", "if"}
  {
  }

  /** One pass of the `for` body on the line at index i. */
  function ExecuteLine(m: Machine, lines: seq<string>, i: nat): (r: Step)
    requires i < |lines|
    ensures r.effect.outcome.Done? ==> i <= r.last < |lines|
    ensures |m.surface.trace| <= |r.effect.state.surface.trace|
    ensures r.effect.state.surface.trace[..|m.surface.trace|] == m.surface.trace
  {
    var parts := Tokens(lines[i]);
    var keyword := Keyword(lines[i]);
    match CaseOf(keyword)
    case Draws =>
      CaseOfShape(keyword);
      (match DrawLine(m.surface, parts, keyword)
       case Ok(s) => Step(Effect(m.(surface := s), Done), i)
       case Err(e) => Step(Effect(m, Fail(e)), i))
    case Assigns =>
      (match SetLine(m.vars, parts)
       case Ok(w) => Step(Effect(m.(vars := w), Done), i)
       case Err(e) => Step(Effect(m, Fail(e)), i))
    case Reads => Step(Effect(m, UseLine(m.vars, parts)), i)
    case Loops => LoopLine(m, lines, i, parts)
    case Branches => IfLine(m, lines, i, parts)
    case Unknown => Step(Effect(m, Fail(UnknownCommand(parts[0]))), i)
  }

  /** The `for` loop from index i: each case, then the line after the one it left `i` at. */
  function Run(m: Machine, lines: seq<string>, i: nat): (r: Effect<Machine>)
    ensures |m.surface.trace| <= |r.state.surface.trace|
    ensures r.state.surface.trace[..|m.surface.trace|] == m.surface.trace
    decreases |lines| - i, 1
  {
    if i >= |lines| then Effect(m, Done) else AfterStep(ExecuteLine(m, lines, i), lines, i)
  }

  /** The rest of the run once the case at index i has left `step`. */
  function AfterStep(step: Step, lines: seq<string>, i: nat): (r: Effect<Machine>)
    requires i < |lines| && (step.effect.outcome.Done? ==> i <= step.last < |lines|)
    ensures |step.effect.state.surface.trace| <= |r.state.surface.trace|
    ensures r.state.surface.trace[..|step.effect.state.surface.trace|] == step.effect.state.surface.trace
    decreases |lines| - i, 0
  {
    if step.effect.outcome.Fail? then step.effect
    else Run(step.effect.state, lines, step.last + 1)
  }

  /** ExecuteProgram: the non-empty lines of the text box, from the first. */
  function Program(m: Machine, code: seq<string>): Effect<Machine> {
    Run(m, RemoveEmpty(code), 0)
  }
}
