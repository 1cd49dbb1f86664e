/**
 * The index-jumping CommandParser (AES352/CommandParser.cs) as an object
 * whose fields its methods update in place, each method proved to leave
 * them as the functions of Aes352Commands and Aes352Semantics say. The
 * graphics object becomes the `trace` field.
 */
module Aes352Parser {
  import opened Outcomes
  import opened Text
  import opened Numbers
  import opened Canvas
  import opened Blocks
  import Evaluator
  import opened Aes352Commands
  import opened Aes352Semantics
  import Aes352Properties

  class CommandParser {
    /** codeTextBox.Text, as its lines. */
    const code: seq<string>

    var variables: Store
    var currentPosition: Point
    var fillEnabled: bool
    var currentPen: Colour
    var trace: seq<Event>

    /** The pen, cursor, fill flag and everything drawn. */
    function Drawing(): Surface
      reads this
    {
      Surface(currentPosition, fillEnabled, currentPen, trace)
    }

    function State(): Machine
      reads this
    {
      Machine(variables, Drawing())
    }

    /** The variables are untouched and the drawing is now `s`. */
    twostate predicate Drew(s: Surface)
      reads this
    {
      variables == old(variables) && Drawing() == s
    }

    constructor(code: seq<string>)
      ensures this.code == code && State() == Fresh
    {
      this.code := code;
      variables := map[];
      currentPosition := Origin;
      fillEnabled := false;
      currentPen := Named("Black");
      trace := [];
    }

    // -------------------------------------------------------------------
    // The pen and cursor.

    method MoveTo(x: real, y: real)
      modifies this
      ensures Drew(Canvas.MoveTo(old(Drawing()), x, y))
    {
      currentPosition := Point(x, y);
    }

    method DrawTo(x: real, y: real)
      modifies this
      ensures Drew(Canvas.DrawTo(old(Drawing()), x, y))
    {
      var newPosition := Point(x, y);
      trace := trace + [Line(currentPen, currentPosition, newPosition)];
      currentPosition := newPosition;
    }

    method Clear()
      modifies this
      ensures Drew(Canvas.Clear(old(Drawing())))
    {
      trace := trace + [Wipe];
      currentPosition := Origin;
    }

    method DrawRectangle(width: real, height: real)
      modifies this
      ensures Drew(Canvas.DrawRectangle(old(Drawing()), width, height))
    {
      if fillEnabled {
        trace := trace + [Rectangle(true, currentPen, currentPosition.x, currentPosition.y, width, height)];
      } else {
        trace := trace + [Rectangle(false, currentPen, currentPosition.x, currentPosition.y, width, height)];
      }
    }

    method DrawCircle(radius: real)
      modifies this
      ensures Drew(Canvas.DrawCircle(old(Drawing()), radius))
    {
      var x := currentPosition.x - radius;
      var y := currentPosition.y - radius;
      if fillEnabled {
        trace := trace + [Ellipse(true, currentPen, x, y, radius * 2.0, radius * 2.0)];
      } else {
        trace := trace + [Ellipse(false, currentPen, x, y, radius * 2.0, radius * 2.0)];
      }
    }

    method DrawTriangle(x1: real, y1: real, x2: real, y2: real, x3: real, y3: real)
      modifies this
      ensures Drew(Canvas.DrawTriangle(old(Drawing()), x1, y1, x2, y2, x3, y3))
    {
      var points := [Point(x1, y1), Point(x2, y2), Point(x3, y3)];
      if fillEnabled {
        trace := trace + [Polygon(true, currentPen, points)];
      } else {
        trace := trace + [Polygon(false, currentPen, points)];
      }
    }

    method SetColor(colour: Colour)
      modifies this
      ensures Drew(SetPen(old(Drawing()), colour))
    {
      currentPen := colour;
    }

    method ResetPenPosition()
      modifies this
      ensures Drew(Canvas.ResetPenPosition(old(Drawing())))
    {
      currentPosition := Origin;
    }

    method ToggleFill(state: string)
      modifies this
      ensures Drew(Canvas.ToggleFill(old(Drawing()), state))
    {
      fillEnabled := Lower(state) == "on";
    }

    // -------------------------------------------------------------------
    // The variable store.

    method SetVariable(varName: string, value: real)
      modifies this
      ensures variables == Aes352Commands.SetVariable(old(variables), varName, value)
      ensures Drawing() == old(Drawing())
    {
      variables := variables[varName := value];
    }

    /** UseVariable: the stored value, or an exception for an unknown name. */
    method UseVariable(varName: string) returns (r: Result<real>)
      ensures r.Ok? <==> varName in variables
      ensures r.Ok? ==> r.value == variables[varName]
      ensures r.Err? ==> r.error == UndefinedVariable(varName)
    {
      if varName in variables {
        return Ok(variables[varName]);
      }
      return Err(UndefinedVariable(varName));
    }

    /** ParseFloat: the variable first, then the literal. */
    method ParseFloat(input: string) returns (r: Result<real>)
      ensures r == Aes352Commands.ParseFloat(variables, input)
    {
      if input in variables {
        r := UseVariable(input);
        return;
      }
      var literal := ParseNumber(input);
      if literal.Some? {
        return Ok(literal.value);
      }
      return Err(Unparsable(input));
    }

    // -------------------------------------------------------------------
    // ExecuteCommand and the replays built on it.

    /** ExecuteCommand: nothing changes when it throws. */
    method ExecuteCommand(command: string) returns (outcome: Outcome)
      modifies this
      ensures var r := Aes352Commands.ExecuteCommand(old(variables), old(Drawing()), command);
        && (r.Ok? ==> outcome == Done && Drew(r.value))
        && (r.Err? ==> outcome == Fail(r.error) && Drew(old(Drawing())))
    {
      var lines := Split(command, ' ');
      var keyword := Lower(lines[0]);
      if keyword == "moveto" {
        var x := Arg(variables, lines, 1);
        if x.Err? { return Fail(x.error); }
        var y := Arg(variables, lines, 2);
        if y.Err? { return Fail(y.error); }
        MoveTo(x.value, y.value);
      } else if keyword == "drawto" {
        var x := Arg(variables, lines, 1);
        if x.Err? { return Fail(x.error); }
        var y := Arg(variables, lines, 2);
        if y.Err? { return Fail(y.error); }
        DrawTo(x.value, y.value);
      } else if keyword == "clear" {
        Clear();
      } else if keyword == "rectangle" {
        var w := Arg(variables, lines, 1);
        if w.Err? { return Fail(w.error); }
        var h := Arg(variables, lines, 2);
        if h.Err? { return Fail(h.error); }
        DrawRectangle(w.value, h.value);
      } else if keyword == "circle" {
        var radius := Arg(variables, lines, 1);
        if radius.Err? { return Fail(radius.error); }
        DrawCircle(radius.value);
      } else if keyword == "triangle" {
        var x1 := Arg(variables, lines, 1);
        if x1.Err? { return Fail(x1.error); }
        var y1 := Arg(variables, lines, 2);
        if y1.Err? { return Fail(y1.error); }
        var x2 := Arg(variables, lines, 3);
        if x2.Err? { return Fail(x2.error); }
        var y2 := Arg(variables, lines, 4);
        if y2.Err? { return Fail(y2.error); }
        var x3 := Arg(variables, lines, 5);
        if x3.Err? { return Fail(x3.error); }
        var y3 := Arg(variables, lines, 6);
        if y3.Err? { return Fail(y3.error); }
        DrawTriangle(x1.value, y1.value, x2.value, y2.value, x3.value, y3.value);
      } else if keyword == "color" {
        if |lines| < 2 { return Fail(IndexOutOfRange); }
        SetColor(Named(lines[1]));
      } else if keyword == "reset" {
        ResetPenPosition();
      } else if keyword == "fill" {
        if |lines| < 2 { return Fail(IndexOutOfRange); }
        ToggleFill(lines[1]);
      } else {
        return Fail(UnknownCommand(lines[0]));
      }
      return Done;
    }

    /** The inner `for (k = from; k < to; k++) ExecuteCommand(lines[k]);` loop. */
    method RunBlock(lines: seq<string>, from: nat, to: nat) returns (outcome: Outcome)
      requires from <= to <= |lines|
      modifies this
      ensures var e := RunCommands(old(variables), old(Drawing()), lines[from..to]);
        outcome == e.outcome && Drew(e.state)
    {
      var k := from;
      while k < to
        invariant from <= k <= to
        invariant Drew(Drawing())
        invariant RunCommands(old(variables), old(Drawing()), lines[from..to])
               == RunCommands(variables, Drawing(), lines[k..to])
      {
        assert lines[k..to][0] == lines[k];
        assert lines[k..to][1..] == lines[k + 1..to];
        outcome := ExecuteCommand(lines[k]);
        if outcome.Fail? {
          return;
        }
        k := k + 1;
      }
      return Done;
    }

    /** The `loop` case: `iterations` passes of the inner loop, then `i` moved to the end. */
    method LoopLine(lines: seq<string>, i: nat, parts: seq<string>) returns (last: nat, outcome: Outcome)
      requires i < |lines| && Keyword(lines[i]) == "loop" && parts == Tokens(lines[i])
      modifies this
      ensures var step := Aes352Semantics.LoopLine(old(State()), lines, i, parts);
        State() == step.effect.state && outcome == step.effect.outcome && last == step.last
    {
      if |parts| < 2 {
        return i, Fail(IndexOutOfRange);
      }
      var count := ParseFloat(parts[1]);
      if count.Err? {
        return i, Fail(count.error);
      }
      var iterations := Truncate(count.value);
      var endLoopIndex := FindEndLoopIndex(lines, i);
      if endLoopIndex.Err? {
        return i, Fail(endLoopIndex.error);
      }
      var end := endLoopIndex.value;
      Aes352Properties.EndFollowsOpener(lines, i, LoopMarker);
      ghost var block := lines[i + 1..end];
      var j := 0;
      while j < iterations
        invariant Drew(Drawing())
        invariant Repeat(variables, old(Drawing()), block, iterations)
               == Repeat(variables, Drawing(), block, iterations - j)
      {
        outcome := RunBlock(lines, i + 1, end);
        if outcome.Fail? {
          return end, outcome;
        }
        j := j + 1;
      }
      return end, Done;
    }

    /** The `if` case: the inner loop once when the condition holds, then `i` moved to the end. */
    method IfLine(lines: seq<string>, i: nat, parts: seq<string>) returns (last: nat, outcome: Outcome)
      requires i < |lines| && Keyword(lines[i]) == "if" && parts == Tokens(lines[i])
      modifies this
      ensures var step := Aes352Semantics.IfLine(old(State()), lines, i, parts);
        State() == step.effect.state && outcome == step.effect.outcome && last == step.last
    {
      if |parts| < 2 {
        return i, Fail(IndexOutOfRange);
      }
      var condition := Evaluator.EvaluateCondition(variables, parts[1]);
      if condition.Err? {
        return i, Fail(condition.error);
      }
      var endIfIndex := FindEndIfIndex(lines, i);
      if endIfIndex.Err? {
        return i, Fail(endIfIndex.error);
      }
      var end := endIfIndex.value;
      Aes352Properties.EndFollowsOpener(lines, i, IfMarker);
      outcome := Done;
      if condition.value {
        outcome := RunBlock(lines, i + 1, end);
      }
      return end, outcome;
    }

    /** The drawing cases of ExecuteProgram's switch, with float.Parse for the numbers. */
    method DrawLine(parts: seq<string>, keyword: string) returns (outcome: Outcome)
      requires keyword in CommandKeywords && |parts| >= 1
      modifies this
      ensures var r := Aes352Semantics.DrawLine(old(Drawing()), parts, keyword);
        && (r.Ok? ==> outcome == Done && Drew(r.value))
        && (r.Err? ==> outcome == Fail(r.error) && Drew(old(Drawing())))
    {
      if keyword == "moveto" {
        var x := StrictArg(parts, 1);
        if x.Err? { return Fail(x.error); }
        var y := StrictArg(parts, 2);
        if y.Err? { return Fail(y.error); }
        MoveTo(x.value, y.value);
      } else if keyword == "drawto" {
        var x := StrictArg(parts, 1);
        if x.Err? { return Fail(x.error); }
        var y := StrictArg(parts, 2);
        if y.Err? { return Fail(y.error); }
        DrawTo(x.value, y.value);
      } else if keyword == "clear" {
        Clear();
      } else if keyword == "rectangle" {
        var w := StrictArg(parts, 1);
        if w.Err? { return Fail(w.error); }
        var h := StrictArg(parts, 2);
        if h.Err? { return Fail(h.error); }
        DrawRectangle(w.value, h.value);
      } else if keyword == "circle" {
        var radius := StrictArg(parts, 1);
        if radius.Err? { return Fail(radius.error); }
        DrawCircle(radius.value);
      } else if keyword == "triangle" {
        var x1 := StrictArg(parts, 1);
        if x1.Err? { return Fail(x1.error); }
        var y1 := StrictArg(parts, 2);
        if y1.Err? { return Fail(y1.error); }
        var x2 := StrictArg(parts, 3);
        if x2.Err? { return Fail(x2.error); }
        var y2 := StrictArg(parts, 4);
        if y2.Err? { return Fail(y2.error); }
        var x3 := StrictArg(parts, 5);
        if x3.Err? { return Fail(x3.error); }
        var y3 := StrictArg(parts, 6);
        if y3.Err? { return Fail(y3.error); }
        DrawTriangle(x1.value, y1.value, x2.value, y2.value, x3.value, y3.value);
      } else if keyword == "color" {
        if |parts| < 2 { return Fail(IndexOutOfRange); }
        SetColor(Named(parts[1]));
      } else if keyword == "reset" {
        ResetPenPosition();
      } else {
        if |parts| < 2 { return Fail(IndexOutOfRange); }
        ToggleFill(parts[1]);
      }
      return Done;
    }

    /** One pass of ExecuteProgram's `for` body; `last` is `i` before the `i++`. */
    method ExecuteLine(lines: seq<string>, i: nat) returns (last: nat, outcome: Outcome)
      requires i < |lines|
      modifies this
      ensures var step := Aes352Semantics.ExecuteLine(old(State()), lines, i);
        State() == step.effect.state && outcome == step.effect.outcome && last == step.last
    {
      var line := Trim(lines[i]);
      var parts := Split(line, ' ');
      var keyword := Lower(parts[0]);
      last := i;
      match CaseOf(keyword)
      case Draws =>
        CaseOfShape(keyword);
        outcome := DrawLine(parts, keyword);
      case Assigns =>
        if |parts| < 3 {
          return i, Fail(IndexOutOfRange);
        }
        var value := ParseFloat(parts[2]);
        if value.Err? {
          return i, Fail(value.error);
        }
        SetVariable(parts[1], value.value);
        outcome := Done;
      case Reads =>
        if |parts| < 2 {
          return i, Fail(IndexOutOfRange);
        }
        var value := UseVariable(parts[1]);
        outcome := if value.Ok? then Done else Fail(value.error);
      case Loops =>
        CaseOfShape(keyword);
        last, outcome := LoopLine(lines, i, parts);
      case Branches =>
        CaseOfShape(keyword);
        last, outcome := IfLine(lines, i, parts);
      case Unknown =>
        outcome := Fail(UnknownCommand(parts[0]));
    }

    /**
     * ExecuteProgram: the non-empty lines of the text box, each case in
     * turn, `i` jumping past the blocks that `loop` and `if` consume, until
     * a case throws.
     */
    method ExecuteProgram() returns (outcome: Outcome)
      modifies this
      ensures var e := Program(old(State()), code);
        State() == e.state && outcome == e.outcome
    {
      var lines := RemoveEmpty(code);
      ghost var run := Run(State(), lines, 0);
      var i := 0;
      while i < |lines|
        invariant run == Run(State(), lines, i)
        decreases |lines| - i
      {
        var last, step := ExecuteLine(lines, i);
        if step.Fail? {
          return step;
        }
        i := last + 1;
      }
      return Done;
    }
  }
}
