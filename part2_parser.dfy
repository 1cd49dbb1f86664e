/**
 * The flag-driven CommandParser (part2/CommandParser.cs) as an object whose
 * fields its methods update in place. Each method follows its C# body and is
 * proved to leave the fields exactly as the step functions of Part2Commands
 * and Part2Semantics say; the properties of those functions are proved in
 * Part2Properties, Part2Commands and Canvas.
 *
 * The graphics object becomes the `trace` field, the pen the `currentPen`
 * field. Lists the object can reach (the loop buffer aside) live in the
 * `lists` heap, so that a method registered under a name and the capture
 * list ExecuteProgram later clears are one and the same list.
 */
module Part2Parser {
  import opened Outcomes
  import opened Text
  import opened Numbers
  import opened Canvas
  import opened Evaluator
  import opened Blocks
  import opened Part2Commands
  import opened Part2Semantics

  class CommandParser {
    /** codeTextBox.Lines. */
    const code: seq<string>
    /** The names Enum.TryParse<KnownColor> accepts. */
    const knownColors: set<string>

    var variables: Store
    var currentPosition: Point
    var fillEnabled: bool
    var currentPen: Colour
    var trace: seq<Event>
    var background: Option<string>
    var lists: seq<seq<string>>
    var methods: map<string, nat>
    var isInsideIfBlock: bool
    var isInsideLoop: bool
    var loopBlock: seq<string>
    var isInsideMethod: bool
    var currentMethodName: string
    var currentLineIndex: nat

    /** The pen, cursor, fill flag and everything drawn. */
    function Drawing(): Surface
      reads this
    {
      Surface(currentPosition, fillEnabled, currentPen, trace)
    }

    /** The fields ExecuteProgram reads and writes. */
    function State(): Machine
      reads this
    {
      Machine(variables, Drawing(), background, lists, methods,
              isInsideIfBlock, isInsideLoop, loopBlock, isInsideMethod, currentMethodName)
    }

    /** Nothing but the drawing changed, and it is now `s`. */
    twostate predicate Drew(s: Surface)
      reads this
    {
      State() == old(State()).(surface := s) && currentLineIndex == old(currentLineIndex)
    }

    /** The fields are now `m`, and the line cursor has not moved. */
    twostate predicate Became(m: Machine)
      reads this
    {
      State() == m && currentLineIndex == old(currentLineIndex)
    }

    constructor(code: seq<string>, knownColors: set<string>)
      ensures this.code == code && this.knownColors == knownColors
      ensures State() == Fresh && currentLineIndex == 0
    {
      this.code := code;
      this.knownColors := knownColors;
      variables := map[];
      currentPosition := Origin;
      fillEnabled := false;
      currentPen := Named("Black");
      trace := [];
      background := None;
      lists := [];
      methods := map[];
      isInsideIfBlock := false;
      isInsideLoop := false;
      loopBlock := [];
      isInsideMethod := false;
      currentMethodName := "";
      currentLineIndex := 0;
    }

    // -------------------------------------------------------------------
    // The pen and cursor.

    method MoveTo(x: real, y: real)
      modifies this
      ensures Drew(Canvas.MoveTo(old(Drawing()), x, y))
    {
      currentPosition := Point(x, y);
    }

    method DrawTo(x: real, y: real)
      modifies this
      ensures Drew(Canvas.DrawTo(old(Drawing()), x, y))
    {
      var newPosition := Point(x, y);
      trace := trace + [Line(currentPen, currentPosition, newPosition)];
      currentPosition := newPosition;
    }

    method Clear()
      modifies this
      ensures Drew(Canvas.Clear(old(Drawing())))
    {
      trace := trace + [Wipe];
      currentPosition := Origin;
    }

    method DrawRectangle(width: real, height: real)
      modifies this
      ensures Drew(Canvas.DrawRectangle(old(Drawing()), width, height))
    {
      if fillEnabled {
        trace := trace + [Rectangle(true, currentPen, currentPosition.x, currentPosition.y, width, height)];
      } else {
        trace := trace + [Rectangle(false, currentPen, currentPosition.x, currentPosition.y, width, height)];
      }
    }

    method DrawCircle(radius: real)
      modifies this
      ensures Drew(Canvas.DrawCircle(old(Drawing()), radius))
    {
      var x := currentPosition.x - radius;
      var y := currentPosition.y - radius;
      if fillEnabled {
        trace := trace + [Ellipse(true, currentPen, x, y, radius * 2.0, radius * 2.0)];
      } else {
        trace := trace + [Ellipse(false, currentPen, x, y, radius * 2.0, radius * 2.0)];
      }
    }

    method DrawTriangle(x1: real, y1: real, x2: real, y2: real, x3: real, y3: real)
      modifies this
      ensures Drew(Canvas.DrawTriangle(old(Drawing()), x1, y1, x2, y2, x3, y3))
    {
      var points := [Point(x1, y1), Point(x2, y2), Point(x3, y3)];
      if fillEnabled {
        trace := trace + [Polygon(true, currentPen, points)];
      } else {
        trace := trace + [Polygon(false, currentPen, points)];
      }
    }

    method DrawText(textContent: string)
      modifies this
      ensures Drew(Canvas.DrawText(old(Drawing()), textContent))
    {
      trace := trace + [Text(currentPosition, textContent)];
    }

    method DrawGridlines(spacing: int)
      modifies this
      ensures Drew(Canvas.DrawGridlines(old(Drawing()), spacing))
    {
      trace := trace + [Grid(spacing)];
    }

    method SetColor(colour: Colour)
      modifies this
      ensures Drew(SetPen(old(Drawing()), colour))
    {
      currentPen := colour;
    }

    method ResetPenPosition()
      modifies this
      ensures Drew(Canvas.ResetPenPosition(old(Drawing())))
    {
      currentPosition := Origin;
    }

    method ToggleFill(state: string)
      modifies this
      ensures Drew(Canvas.ToggleFill(old(Drawing()), state))
    {
      fillEnabled := Lower(state) == "on";
    }

    // -------------------------------------------------------------------
    // ExecuteCommand and the replays built on it.

    /** ExecuteCommand: nothing changes when it throws. */
    method ExecuteCommand(commandText: string) returns (outcome: Outcome)
      modifies this
      ensures var r := Part2Commands.ExecuteCommand(old(variables), old(Drawing()), commandText);
        && (r.Ok? ==> outcome == Done && Drew(r.value))
        && (r.Err? ==> outcome == Fail(r.error) && Drew(old(Drawing())))
    {
      var lines := Split(commandText, ' ');
      var keyword := Lower(lines[0]);
      if keyword == "moveto" {
        var x := Arg(variables, lines, 1);
        if x.Err? { return Fail(x.error); }
        var y := Arg(variables, lines, 2);
        if y.Err? { return Fail(y.error); }
        MoveTo(x.value, y.value);
      } else if keyword == "drawto" {
        var x := Arg(variables, lines, 1);
        if x.Err? { return Fail(x.error); }
        var y := Arg(variables, lines, 2);
        if y.Err? { return Fail(y.error); }
        DrawTo(x.value, y.value);
      } else if keyword == "clear" {
        Clear();
      } else if keyword == "rectangle" {
        var w := Arg(variables, lines, 1);
        if w.Err? { return Fail(w.error); }
        var h := Arg(variables, lines, 2);
        if h.Err? { return Fail(h.error); }
        DrawRectangle(w.value, h.value);
      } else if keyword == "circle" {
        var radius := Arg(variables, lines, 1);
        if radius.Err? { return Fail(radius.error); }
        DrawCircle(radius.value);
      } else if keyword == "triangle" {
        var x1 := Arg(variables, lines, 1);
        if x1.Err? { return Fail(x1.error); }
        var y1 := Arg(variables, lines, 2);
        if y1.Err? { return Fail(y1.error); }
        var x2 := Arg(variables, lines, 3);
        if x2.Err? { return Fail(x2.error); }
        var y2 := Arg(variables, lines, 4);
        if y2.Err? { return Fail(y2.error); }
        var x3 := Arg(variables, lines, 5);
        if x3.Err? { return Fail(x3.error); }
        var y3 := Arg(variables, lines, 6);
        if y3.Err? { return Fail(y3.error); }
        DrawTriangle(x1.value, y1.value, x2.value, y2.value, x3.value, y3.value);
      } else if keyword == "setcolor" {
        var colour := ColourArg(lines);
        if colour.Err? { return Fail(colour.error); }
        SetColor(colour.value);
      } else if keyword == "reset" {
        ResetPenPosition();
      } else if keyword == "fill" {
        if |lines| < 2 { return Fail(IndexOutOfRange); }
        ToggleFill(lines[1]);
      } else {
        return Fail(UnknownCommand(lines[0]));
      }
      return Done;
    }

    /** The `foreach (var line in ...) ExecuteCommand(line);` of CallMethod and RepeatLoopBlock. */
    method ExecuteEach(block: seq<string>) returns (outcome: Outcome)
      modifies this
      ensures var e := RunCommands(old(variables), old(Drawing()), block);
        outcome == e.outcome && Drew(e.state)
    {
      ghost var e := RunCommands(variables, Drawing(), block);
      var i := 0;
      while i < |block|
        invariant 0 <= i <= |block|
        invariant Drew(Drawing())
        invariant e == RunCommands(variables, Drawing(), block[i..])
      {
        ghost var r := Part2Commands.ExecuteCommand(variables, Drawing(), block[i]);
        assert e == if r.Err? then Effect(Drawing(), Fail(r.error)) else RunCommands(variables, r.value, block[i + 1..]) by {
          ghost var rest := block[i..];
          assert rest[0] == block[i] && rest[1..] == block[i + 1..];
          RunCommandsStep(variables, Drawing(), rest);
        }
        outcome := ExecuteCommand(block[i]);
        if outcome.Fail? {
          return;
        }
        i := i + 1;
      }
      return Done;
    }

    /** RepeatLoopBlock: its outer loop makes exactly one pass. */
    method RepeatLoopBlock(block: seq<string>) returns (outcome: Outcome)
      modifies this
      ensures var e := RunCommands(old(variables), old(Drawing()), block);
        outcome == e.outcome && Drew(e.state)
    {
      outcome := Done;
      for pass := 0 to 1
        invariant pass == 0 ==> Drew(old(Drawing()))
        invariant pass == 1 ==>
          var e := RunCommands(old(variables), old(Drawing()), block);
          outcome == e.outcome && Drew(e.state)
      {
        outcome := ExecuteEach(block);
        if outcome.Fail? {
          return;
        }
      }
    }

    /** CallMethod: the registered list, looked up by the token without its trailing brackets. */
    method CallMethod(methodName: string) returns (outcome: Outcome)
      modifies this
      ensures var e := Part2Semantics.CallMethod(old(State()), methodName);
        outcome == e.outcome && Drew(e.state)
    {
      var name := TrimEndAny(methodName, {'(', ')'});
      if name in methods {
        var methodBody := Deref(lists, methods[name]);
        outcome := ExecuteEach(methodBody);
      } else {
        outcome := Fail(UndefinedMethod(name));
      }
    }

    /** DefineMethod: registers the list `methodBody` under a name not yet taken. */
    method DefineMethod(methodName: string, methodBody: nat) returns (outcome: Outcome)
      modifies this
      ensures var r := Part2Semantics.DefineMethod(old(methods), methodName, methodBody);
        && (r.Ok? ==> outcome == Done && Became(old(State()).(methods := r.value)))
        && (r.Err? ==> outcome == Fail(r.error) && Became(old(State())))
    {
      if methodName !in methods {
        methods := methods[methodName := methodBody];
        return Done;
      }
      return Fail(MethodAlreadyDefined(methodName));
    }

    // -------------------------------------------------------------------
    // Variables and the background.

    /** SetVariable: a blank expression throws; otherwise only `name` is (re)bound. */
    method SetVariable(name: string, expression: string) returns (outcome: Outcome)
      modifies this
      ensures var r := AssignVariable(old(variables), name, expression);
        && (r.Ok? ==> outcome == Done && Became(old(State()).(vars := r.value)))
        && (r.Err? ==> outcome == Fail(r.error) && Became(old(State())))
    {
      if IsBlank(expression) {
        return Fail(EmptyExpression(name));
      }
      var value := ParseFloat(variables, expression);
      if value.Err? {
        return Fail(value.error);
      }
      variables := variables[name := value.value];
      return Done;
    }

    /** ChangeBackgroundColor: a known colour name, in any case, or an exception. */
    method ChangeBackgroundColor(colorName: string) returns (outcome: Outcome)
      modifies this
      ensures Lower(colorName) in LowerNames(knownColors) ==>
        outcome == Done && Became(old(State()).(background := Some(Lower(colorName))))
      ensures Lower(colorName) !in LowerNames(knownColors) ==>
        outcome == Fail(InvalidColorName(colorName)) && Became(old(State()))
    {
      if Lower(colorName) in LowerNames(knownColors) {
        background := Some(Lower(colorName));
        return Done;
      }
      return Fail(InvalidColorName(colorName));
    }

    // -------------------------------------------------------------------
    // The line cursor and SkipToEndIf.

    /** ReadNextLine: the line under the cursor, which then moves on; None past the end. */
    method ReadNextLine() returns (line: Option<string>)
      modifies this
      ensures State() == old(State())
      ensures old(currentLineIndex) < |code| ==>
        line == Some(code[old(currentLineIndex)]) && currentLineIndex == old(currentLineIndex) + 1
      ensures old(currentLineIndex) >= |code| ==> line == None && currentLineIndex == old(currentLineIndex)
    {
      if currentLineIndex < |code| {
        line := Some(code[currentLineIndex]);
        currentLineIndex := currentLineIndex + 1;
      } else {
        line := None;
      }
    }

    /**
     * SkipToEndIf: reads lines until the whole-line `endif` that balances the
     * `if` already read, counting whole-line `if`s on the way; the cursor is
     * left just after that `endif`. Running out of lines throws.
     */
    method SkipToEndIf() returns (outcome: Outcome)
      modifies this
      ensures State() == old(State())
      ensures outcome == Done <==> MatchingEnd(SkipMarker, code, old(currentLineIndex)).Some?
      ensures outcome == Done ==> currentLineIndex == MatchingEnd(SkipMarker, code, old(currentLineIndex)).value + 1
      ensures outcome != Done ==>
        && outcome == Fail(MismatchedIf)
        && currentLineIndex == (if old(currentLineIndex) < |code| then |code| else old(currentLineIndex))
    {
      ghost var start := currentLineIndex;
      ghost var ds := Deltas(SkipMarker, code);
      var ifCount := 1;
      while ifCount > 0
        invariant State() == old(State())
        invariant start >= |code| ==> currentLineIndex == start && ifCount == 1
        invariant start < |code| ==>
          && start <= currentLineIndex <= |code|
          && ifCount == 1 + Depth(ds, start, currentLineIndex)
          && (ifCount > 0 ==> NonNegative(ds, start, currentLineIndex))
          && (ifCount == 0 ==> Blocks.Closes(ds, start, currentLineIndex - 1))
        decreases |code| - currentLineIndex, ifCount
      {
        ghost var i := currentLineIndex;
        var line := ReadNextLine();
        if line.None? {
          if start < |code| {
            UnclosedHasNoEnd(SkipMarker, code, start);
          }
          return Fail(MismatchedIf);
        }
        DeltasAt(SkipMarker, code, i);
        var t := Trim(Lower(line.value));
        if t == "if" {
          ifCount := ifCount + 1;
        } else if t == "endif" {
          ifCount := ifCount - 1;
        }
        assert ifCount == 1 + Depth(ds, start, currentLineIndex);
      }
      MatchingEndComplete(SkipMarker, code, start, currentLineIndex - 1);
      return Done;
    }

    // -------------------------------------------------------------------
    // ExecuteProgram, case group by case group.

    /** The drawing cases of the switch, and `text`. */
    method DrawCommand(parts: seq<string>, keyword: string) returns (outcome: Outcome)
      requires keyword in DrawKeywords && |parts| >= 1
      modifies this
      ensures var r := Part2Commands.DrawCommand(old(variables), old(Drawing()), parts, keyword);
        && (r.Ok? ==> outcome == Done && Drew(r.value))
        && (r.Err? ==> outcome == Fail(r.error) && Drew(old(Drawing())))
    {
      if keyword == "moveto" {
        var x := StrictArg(parts, 1);
        if x.Err? { return Fail(x.error); }
        var y := StrictArg(parts, 2);
        if y.Err? { return Fail(y.error); }
        MoveTo(x.value, y.value);
      } else if keyword == "drawto" {
        var x := StrictArg(parts, 1);
        if x.Err? { return Fail(x.error); }
        var y := StrictArg(parts, 2);
        if y.Err? { return Fail(y.error); }
        DrawTo(x.value, y.value);
      } else if keyword == "clear" {
        Clear();
      } else if keyword == "rectangle" {
        var w := StrictArg(parts, 1);
        if w.Err? { return Fail(w.error); }
        var h := StrictArg(parts, 2);
        if h.Err? { return Fail(h.error); }
        DrawRectangle(w.value, h.value);
      } else if keyword == "circle" {
        var radius := Radius(variables, parts);
        if radius.Err? { return Fail(radius.error); }
        DrawCircle(radius.value);
      } else if keyword == "triangle" {
        var x1 := StrictArg(parts, 1);
        if x1.Err? { return Fail(x1.error); }
        var y1 := StrictArg(parts, 2);
        if y1.Err? { return Fail(y1.error); }
        var x2 := StrictArg(parts, 3);
        if x2.Err? { return Fail(x2.error); }
        var y2 := StrictArg(parts, 4);
        if y2.Err? { return Fail(y2.error); }
        var x3 := StrictArg(parts, 5);
        if x3.Err? { return Fail(x3.error); }
        var y3 := StrictArg(parts, 6);
        if y3.Err? { return Fail(y3.error); }
        DrawTriangle(x1.value, y1.value, x2.value, y2.value, x3.value, y3.value);
      } else if keyword == "setcolor" {
        var colour := ColourArg(parts);
        if colour.Err? { return Fail(colour.error); }
        SetColor(colour.value);
      } else if keyword == "reset" {
        ResetPenPosition();
      } else if keyword == "text" {
        DrawText(Join(" ", parts[1..]));
      } else {
        if |parts| < 2 { return Fail(IndexOutOfRange); }
        ToggleFill(parts[1]);
      }
      return Done;
    }

    /** `set` and `usevar`. */
    method VariableLine(parts: seq<string>, keyword: string) returns (outcome: Outcome)
      requires keyword == "set" || keyword == "usevar"
      modifies this
      ensures var r := Part2Semantics.VariableLine(old(variables), parts, keyword);
        && (r.Ok? ==> outcome == Done && Became(old(State()).(vars := r.value)))
        && (r.Err? ==> outcome == Fail(r.error) && Became(old(State())))
    {
      if keyword == "set" {
        if |parts| < 3 {
          return Fail(SetFormat);
        }
        outcome := SetVariable(parts[1], Join(" ", parts[2..]));
      } else {
        if |parts| < 2 {
          return Fail(IndexOutOfRange);
        }
        var value := UseVariable(variables, parts[1]);
        if value.Err? {
          return Fail(value.error);
        }
        return Done;
      }
    }

    /** `bgcolor` and `drawgrid`. */
    method DisplayLine(parts: seq<string>, keyword: string) returns (outcome: Outcome)
      requires keyword == "bgcolor" || keyword == "drawgrid"
      modifies this
      ensures var e := Part2Semantics.DisplayLine(knownColors, old(State()), parts, keyword);
        outcome == e.outcome && Became(e.state)
    {
      if |parts| < 2 {
        return Done;
      }
      if keyword == "bgcolor" {
        outcome := ChangeBackgroundColor(parts[1]);
      } else {
        var spacing := ParseInteger(parts[1]);
        if spacing.Some? {
          DrawGridlines(spacing.value);
        }
        return Done;
      }
    }

    /** `loop`, `endloop`, `method` and `endmethod`, with `currentMethodBody` the list `body`. */
    method BlockLine(parts: seq<string>, keyword: string, body: nat) returns (outcome: Outcome)
      requires keyword in {"loop", "endloop", "method", "endmethod"}
      modifies this
      ensures var e := Part2Semantics.BlockLine(old(State()), body, parts, keyword);
        outcome == e.outcome && Became(e.state)
    {
      if keyword == "loop" {
        if !isInsideLoop {
          isInsideLoop := true;
          loopBlock := [];
          return Done;
        }
        return Fail(NestedLoop);
      } else if keyword == "endloop" {
        if isInsideLoop {
          outcome := RepeatLoopBlock(loopBlock);
          if outcome.Fail? {
            return;
          }
          isInsideLoop := false;
          return Done;
        }
        return Fail(MismatchedEndloop);
      } else if keyword == "method" {
        if Deref(lists, body) == [] {
          if |parts| < 2 {
            return Fail(IndexOutOfRange);
          }
          isInsideMethod := true;
          currentMethodName := parts[1];
          return Done;
        }
        return Fail(NestedMethod);
      } else {
        if isInsideMethod {
          outcome := DefineMethod(currentMethodName, body);
          if outcome.Fail? {
            return;
          }
          lists := Update(lists, body, []);
          isInsideMethod := false;
          return Done;
        }
        return Fail(MismatchedEndmethod);
      }
    }

    /** The `default` case. */
    method DefaultLine(line: string, parts: seq<string>, body: nat) returns (outcome: Outcome)
      requires |parts| >= 1
      modifies this
      ensures var e := Part2Semantics.DefaultLine(old(State()), body, line, parts);
        outcome == e.outcome && Became(e.state)
    {
      if isInsideMethod {
        lists := Update(lists, body, Deref(lists, body) + [line]);
        return Done;
      } else if isInsideLoop {
        loopBlock := loopBlock + [line];
        return Done;
      } else if IsMethodCall(parts[0]) {
        outcome := CallMethod(parts[0]);
      } else {
        outcome := ExecuteCommand(line);
      }
    }

    /** One iteration of ExecuteProgram's foreach; `skip` is the local `skipCommands`. */
    method ExecuteLine(line: string, body: nat, skip: bool) returns (skipAfter: bool, outcome: Outcome)
      modifies this
      ensures var e := Part2Semantics.ExecuteLine(knownColors, Config(old(State()), body, skip), line);
        && Became(e.state.m) && skipAfter == e.state.skip && outcome == e.outcome
    {
      var parts := Tokens(line);
      var command := Keyword(line);
      if command == "if" {
        isInsideIfBlock := true;
        var holds := CheckIfCondition(variables, Join(" ", parts[1..]));
        if holds.Err? {
          return skip, Fail(holds.error);
        }
        return !holds.value, Done;
      }
      if command == "endif" {
        isInsideIfBlock := false;
        return false, Done;
      }
      skipAfter := skip;
      if isInsideIfBlock && skip {
        return skip, Done;
      }
      match CaseOf(command)
      case Draws =>
        CaseOfShape(command);
        outcome := DrawCommand(parts, command);
      case Variables =>
        CaseOfShape(command);
        outcome := VariableLine(parts, command);
      case Display =>
        CaseOfShape(command);
        outcome := DisplayLine(parts, command);
      case Block =>
        CaseOfShape(command);
        outcome := BlockLine(parts, command, body);
      case Default =>
        outcome := DefaultLine(line, parts, body);
    }

    /**
     * ExecuteProgram: a fresh capture list and skip flag, then every
     * non-empty line of the text box in turn, until one throws.
     */
    method ExecuteProgram() returns (outcome: Outcome)
      modifies this
      ensures var e := Program(knownColors, old(State()), code);
        outcome == e.outcome && Became(e.state)
    {
      var lines := RemoveEmpty(code);
      var currentMethodBody := |lists|;
      lists := lists + [[]];
      var skipCommands := false;
      ghost var run := RunLines(knownColors, Start(old(State())), lines, 0);
      var i := 0;
      while i < |lines|
        invariant 0 <= i <= |lines|
        invariant currentLineIndex == old(currentLineIndex)
        invariant run == RunLines(knownColors, Config(State(), currentMethodBody, skipCommands), lines, i)
      {
        var step: Outcome;
        skipCommands, step := ExecuteLine(lines[i], currentMethodBody, skipCommands);
        if step.Fail? {
          return step;
        }
        i := i + 1;
      }
      return Done;
    }
  }
}
