/**
 * What ExecuteProgram of the flag-driven interpreter (part2/CommandParser.cs)
 * does with `if`, loops and methods, stated over the step function.
 */
module Part2Properties {
  import opened Outcomes
  import opened Text
  import opened Canvas
  import opened Evaluator
  import opened Part2Commands
  import opened Part2Semantics

  /** Nothing is being skipped. */
  predicate Running(c: Config) {
    !(c.m.insideIf && c.skip)
  }

  /** The condition text of an `if` line: the tokens after the keyword, joined again. */
  function Condition(line: string): string {
    Join(" ", Tokens(line)[1..])
  }

  // ---------------------------------------------------------------------
  // if / endif.

  /** A line that a false `if` passes over: neither `if` nor `endif`. */
  predicate PassedOver(line: string) {
    Keyword(line) != "if" && Keyword(line) != "endif"
  }

  /** While a false `if` is open, every line other than `if` and `endif` is passed over. */
  lemma SkippedLinesChangeNothing(knownColors: set<string>, c: Config, line: string)
    requires !Running(c) && Keyword(line) != "if" && Keyword(line) != "endif"
    ensures ExecuteLine(knownColors, c, line) == Effect(c, Done)
  {
  }

  /** `endif` clears both flags and changes nothing else. */
  lemma EndifClearsSkip(knownColors: set<string>, c: Config, line: string)
    requires Keyword(line) == "endif"
    ensures ExecuteLine(knownColors, c, line) == Effect(Config(c.m.(insideIf := false), c.body, false), Done)
  {
  }

  /** A run of passed-over lines is the same as not having them at all. */
  lemma {:induction false} SkipToNextEndif(knownColors: set<string>, c: Config, lines: seq<string>, i: nat, j: nat)
    requires !Running(c) && i <= j <= |lines|
    requires forall k {:trigger PassedOver(lines[k])} :: i <= k < j ==> PassedOver(lines[k])
    ensures RunLines(knownColors, c, lines, i) == RunLines(knownColors, c, lines, j)
    decreases j - i
  {
    if i < j {
      SkipOneLine(knownColors, c, lines, i);
      SkipToNextEndif(knownColors, c, lines, i + 1, j);
    }
  }

  /** One passed-over line in a run. */
  lemma SkipOneLine(knownColors: set<string>, c: Config, lines: seq<string>, i: nat)
    requires !Running(c) && i < |lines| && PassedOver(lines[i])
    ensures RunLines(knownColors, c, lines, i) == RunLines(knownColors, c, lines, i + 1)
  {
    SkippedLinesChangeNothing(knownColors, c, lines[i]);
  }

  /**
   * An `if` whose condition is false, followed by lines without `if` or
   * `endif` and then an `endif`, runs none of those lines: the run goes on
   * after the `endif` with only the if flag changed.
   */
  lemma {:induction false} FalseIfSkipsItsBlock(knownColors: set<string>, c: Config, lines: seq<string>, i: nat, j: nat)
    requires i < j < |lines|
    requires Keyword(lines[i]) == "if" && CheckIfCondition(c.m.vars, Condition(lines[i])) == Ok(false)
    requires forall k {:trigger PassedOver(lines[k])} :: i < k < j ==> PassedOver(lines[k])
    requires Keyword(lines[j]) == "endif"
    ensures RunLines(knownColors, c, lines, i)
      == RunLines(knownColors, Config(c.m.(insideIf := false), c.body, false), lines, j + 1)
  {
    var open := Config(c.m.(insideIf := true), c.body, true);
    IfDecidesSkip(knownColors, c, lines[i], false);
    assert RunLines(knownColors, c, lines, i) == RunLines(knownColors, open, lines, i + 1);
    SkipToNextEndif(knownColors, open, lines, i + 1, j);
    EndifClearsSkip(knownColors, open, lines[j]);
    assert RunLines(knownColors, open, lines, j)
      == RunLines(knownColors, Config(c.m.(insideIf := false), c.body, false), lines, j + 1);
  }

  /**
   * `if` opens a block whatever the current flags (a nested `if` simply
   * replaces the skip flag): a false condition skips, a true one runs.
   */
  lemma IfDecidesSkip(knownColors: set<string>, c: Config, line: string, holds: bool)
    requires Keyword(line) == "if" && CheckIfCondition(c.m.vars, Condition(line)) == Ok(holds)
    ensures ExecuteLine(knownColors, c, line) == Effect(Config(c.m.(insideIf := true), c.body, !holds), Done)
    ensures holds <==> Running(ExecuteLine(knownColors, c, line).state)
  {
  }

  // ---------------------------------------------------------------------
  // Loops and methods.

  /** `loop` inside a loop, and `endloop` or `endmethod` with nothing open, throw and change nothing. */
  lemma BlockErrors(knownColors: set<string>, c: Config, line: string)
    requires Running(c)
    ensures Keyword(line) == "loop" && c.m.insideLoop ==> ExecuteLine(knownColors, c, line) == Effect(c, Fail(NestedLoop))
    ensures Keyword(line) == "endloop" && !c.m.insideLoop ==>
      ExecuteLine(knownColors, c, line) == Effect(c, Fail(MismatchedEndloop))
    ensures Keyword(line) == "endmethod" && !c.m.insideMethod ==>
      ExecuteLine(knownColors, c, line) == Effect(c, Fail(MismatchedEndmethod))
  {
    BlockKeywords();
    if CaseOf(Keyword(line)) == Block {
      BlockCase(Keyword(line));
      assert ExecuteLine(knownColors, c, line) == Lift(c, BlockLine(c.m, c.body, Tokens(line), Keyword(line)));
    }
  }

  /** The four block keywords fall in the block group. */
  lemma BlockKeywords()
    ensures CaseOf("loop") == Block && CaseOf("endloop") == Block
    ensures CaseOf("method") == Block && CaseOf("endmethod") == Block
  {
  }

  /** `endloop` replays the captured lines exactly once, then closes the loop if nothing threw. */
  lemma LoopBodyReplayedOnce(knownColors: set<string>, c: Config, line: string)
    requires Running(c) && c.m.insideLoop && Keyword(line) == "endloop"
    ensures var e := ExecuteLine(knownColors, c, line);
      var replay := RunCommands(c.m.vars, c.m.surface, c.m.loopBlock);
      && e.state.m.surface == replay.state && e.outcome == replay.outcome
      && (e.outcome == Done <==> !e.state.m.insideLoop)
  {
    BlockKeywords();
    assert Running(c) ==> ExecuteLine(knownColors, c, line) == Lift(c, BlockLine(c.m, c.body, Tokens(line), Keyword(line))) by {
      if Running(c) {
        BlockCase(Keyword(line));
      }
    }
  }

  /**
   * `method` is refused only when this run's capture list is non-empty; the
   * flag that says a method is open is not consulted.
   */
  lemma NestedMethodCheckTestsTheList(knownColors: set<string>, c: Config, line: string)
    requires Running(c) && Keyword(line) == "method" && |Tokens(line)| >= 2
    ensures var e := ExecuteLine(knownColors, c, line);
      && (e.outcome == Done <==> Body(c) == [])
      && (e.outcome == Done ==> e.state.m.insideMethod && e.state.m.methodName == Tokens(line)[1])
      && (e.outcome != Done ==> e == Effect(c, Fail(NestedMethod)))
  {
    BlockKeywords();
    assert Running(c) ==> ExecuteLine(knownColors, c, line) == Lift(c, BlockLine(c.m, c.body, Tokens(line), Keyword(line))) by {
      if Running(c) {
        BlockCase(Keyword(line));
      }
    }
  }

  /**
   * `endmethod` registers this run's capture list under the open name and
   * then clears that same list: the registered body is always empty
   * afterwards. A name already registered throws instead.
   */
  lemma MethodBodyEmptiedAfterDefinition(knownColors: set<string>, c: Config, line: string)
    requires Running(c) && c.m.insideMethod && Keyword(line) == "endmethod" && c.body < |c.m.lists|
    ensures var e := ExecuteLine(knownColors, c, line);
      && (e.outcome == Done <==> c.m.methodName !in c.m.methods)
      && (e.outcome == Done ==>
            && e.state.m.methods == c.m.methods[c.m.methodName := c.body]
            && Deref(e.state.m.lists, e.state.m.methods[c.m.methodName]) == []
            && !e.state.m.insideMethod)
      && (e.outcome != Done ==> e == Effect(c, Fail(MethodAlreadyDefined(c.m.methodName))))
  {
    BlockKeywords();
    assert Running(c) ==> ExecuteLine(knownColors, c, line) == Lift(c, BlockLine(c.m, c.body, Tokens(line), Keyword(line))) by {
      if Running(c) {
        BlockCase(Keyword(line));
      }
    }
  }

  /** A call token is a name followed by "()", and CallMethod looks up that name. */
  lemma CallTokenRoundTrip(name: string)
    requires name != [] && name[|name| - 1] != '(' && name[|name| - 1] != ')'
    ensures IsMethodCall(name + "()")
    ensures MethodName(name + "()") == name
  {
    var t := name + "()";
    var cs := {'(', ')'};
    assert t[..|t| - 1] == name + "(";
    assert (name + "(")[..|name|] == name;
    assert TrimEndAny(name, cs) == name;
    assert TrimEndAny(name + "(", cs) == TrimEndAny(name, cs);
    assert TrimEndAny(t, cs) == TrimEndAny(name + "(", cs);
  }

  // ---------------------------------------------------------------------
  // What a step never undoes.

  /** Entries of the variable store and of the method registry are never removed or re-pointed. */
  predicate Extends(before: Machine, after: Machine) {
    && before.vars.Keys <= after.vars.Keys
    && (forall k :: k in before.methods ==> k in after.methods && after.methods[k] == before.methods[k])
    && |before.lists| == |after.lists|
  }

  lemma ExecuteLineExtends(knownColors: set<string>, c: Config, line: string)
    ensures Extends(c.m, ExecuteLine(knownColors, c, line).state.m)
  {
    var keyword := Keyword(line);
    if Running(c) && keyword != "if" && keyword != "endif" && CaseOf(keyword) == Block {
      BlockCase(keyword);
      assert ExecuteLine(knownColors, c, line) == Lift(c, BlockLine(c.m, c.body, Tokens(line), keyword));
    }
  }

  lemma {:induction false} RunLinesExtends(knownColors: set<string>, c: Config, lines: seq<string>, i: nat)
    requires i <= |lines|
    ensures Extends(c.m, RunLines(knownColors, c, lines, i).state.m)
    decreases |lines| - i
  {
    if i < |lines| {
      var step := ExecuteLine(knownColors, c, lines[i]);
      ExecuteLineExtends(knownColors, c, lines[i]);
      if step.outcome.Done? {
        RunLinesExtends(knownColors, step.state, lines, i + 1);
      }
    }
  }

  /** A whole run keeps every variable and every registered method. */
  lemma ProgramKeepsRegistry(knownColors: set<string>, m: Machine, code: seq<string>)
    ensures var after := Program(knownColors, m, code).state;
      && m.vars.Keys <= after.vars.Keys
      && (forall k :: k in m.methods ==> k in after.methods && after.methods[k] == m.methods[k])
  {
    RunLinesExtends(knownColors, Start(m), RemoveEmpty(code), 0);
  }

  // ---------------------------------------------------------------------
  // Captured lines never draw.

  /** Every line held in a list or in the loop buffer is one that reached the default case. */
  predicate Captured(m: Machine) {
    && AllUnhandled(m.loopBlock)
    && forall k :: 0 <= k < |m.lists| ==> AllUnhandled(m.lists[k])
  }

  /** Only lines that reach the default case are ever captured. */
  lemma CapturedPreserved(knownColors: set<string>, c: Config, line: string)
    requires Captured(c.m)
    ensures Captured(ExecuteLine(knownColors, c, line).state.m)
  {
    var tokens := Tokens(line);
    var keyword := Keyword(line);
    if Running(c) && keyword != "if" && keyword != "endif" {
      var group := CaseOf(keyword);
      if group == Block {
        BlockCase(keyword);
        BlockLineKeepsCaptured(c, tokens, keyword);
      } else if group == Default {
        DefaultCase(keyword);
        DefaultLineKeepsCaptured(c, line, tokens);
      } else {
        OtherLinesKeepLists(knownColors, c, line);
      }
    } else {
      OtherLinesKeepLists(knownColors, c, line);
    }
  }

  /** Outside the block markers and the default case, no line touches a list or the loop buffer. */
  lemma OtherLinesKeepLists(knownColors: set<string>, c: Config, line: string)
    requires !Running(c) || Keyword(line) == "if" || Keyword(line) == "endif"
      || (CaseOf(Keyword(line)) != Block && CaseOf(Keyword(line)) != Default)
    ensures ExecuteLine(knownColors, c, line).state.m.lists == c.m.lists
    ensures ExecuteLine(knownColors, c, line).state.m.loopBlock == c.m.loopBlock
  {
    var keyword := Keyword(line);
    if Running(c) && keyword != "if" && keyword != "endif" {
      var group := CaseOf(keyword);
      if group == Draws {
        DrawLineKeepsLists(knownColors, c, line);
      } else if group == Variables {
        VariableLineKeepsLists(knownColors, c, line);
      } else {
        DisplayLineKeepsLists(knownColors, c, line);
      }
    }
  }

  lemma DrawLineKeepsLists(knownColors: set<string>, c: Config, line: string)
    requires Running(c) && Keyword(line) != "if" && Keyword(line) != "endif" && CaseOf(Keyword(line)) == Draws
    ensures ExecuteLine(knownColors, c, line).state.m.lists == c.m.lists
    ensures ExecuteLine(knownColors, c, line).state.m.loopBlock == c.m.loopBlock
  {
  }

  lemma VariableLineKeepsLists(knownColors: set<string>, c: Config, line: string)
    requires Running(c) && Keyword(line) != "if" && Keyword(line) != "endif" && CaseOf(Keyword(line)) == Variables
    ensures ExecuteLine(knownColors, c, line).state.m.lists == c.m.lists
    ensures ExecuteLine(knownColors, c, line).state.m.loopBlock == c.m.loopBlock
  {
  }

  lemma DisplayLineKeepsLists(knownColors: set<string>, c: Config, line: string)
    requires Running(c) && Keyword(line) != "if" && Keyword(line) != "endif" && CaseOf(Keyword(line)) == Display
    ensures ExecuteLine(knownColors, c, line).state.m.lists == c.m.lists
    ensures ExecuteLine(knownColors, c, line).state.m.loopBlock == c.m.loopBlock
  {
  }

  lemma BlockLineKeepsCaptured(c: Config, tokens: seq<string>, keyword: string)
    requires Captured(c.m) && keyword in {"loop", "endloop", "method", "endmethod"}
    ensures Captured(BlockLine(c.m, c.body, tokens, keyword).state)
  {
  }

  lemma DefaultLineKeepsCaptured(c: Config, line: string, tokens: seq<string>)
    requires Captured(c.m) && Unhandled(line) && |tokens| >= 1
    ensures Captured(DefaultLine(c.m, c.body, line, tokens).state)
  {
    if c.m.insideMethod {
      var lists := DefaultLine(c.m, c.body, line, tokens).state.lists;
      forall k | 0 <= k < |lists| ensures AllUnhandled(lists[k]) {
        if k == c.body {
          assert lists[k] == Body(c) + [line];
        }
      }
    }
  }

  /**
   * With the invariant in place, no line draws except the drawing keywords
   * and `drawgrid`: an `endloop` or a method call replays only captured
   * lines, which ExecuteCommand rejects, and any other default line is
   * rejected outright.
   */
  lemma ReplayNeverDraws(knownColors: set<string>, c: Config, line: string)
    requires Captured(c.m)
    requires Keyword(line) !in DrawKeywords && Keyword(line) != "drawgrid"
    ensures ExecuteLine(knownColors, c, line).state.m.surface == c.m.surface
  {
    var tokens := Tokens(line);
    var keyword := Keyword(line);
    if Running(c) && keyword != "if" && keyword != "endif" {
      var group := CaseOf(keyword);
      if group == Block {
        BlockCase(keyword);
        BlockLineDrawsNothing(c, tokens, keyword);
      } else if group == Default {
        DefaultCase(keyword);
        DefaultLineDrawsNothing(c, line, tokens);
      } else if group == Display {
        BackgroundOnly(keyword);
      }
    }
  }

  /** The block group is the four block keywords. */
  lemma BlockCase(keyword: string)
    requires CaseOf(keyword) == Block
    ensures keyword in {"loop", "endloop", "method", "endmethod"}
  {
    CaseOfShape(keyword);
  }

  /** The default group is every keyword outside the switch. */
  lemma DefaultCase(keyword: string)
    requires CaseOf(keyword) == Default
    ensures keyword !in SwitchKeywords
  {
    CaseOfShape(keyword);
  }

  /** Of the two display keywords, only `drawgrid` draws. */
  lemma BackgroundOnly(keyword: string)
    requires CaseOf(keyword) == Display && keyword != "drawgrid"
    ensures keyword == "bgcolor"
  {
    CaseOfShape(keyword);
  }

  lemma BlockLineDrawsNothing(c: Config, tokens: seq<string>, keyword: string)
    requires Captured(c.m) && keyword in {"loop", "endloop", "method", "endmethod"}
    ensures BlockLine(c.m, c.body, tokens, keyword).state.surface == c.m.surface
  {
    if keyword == "endloop" && c.m.insideLoop {
      ReplayOfUnhandledLines(c.m.vars, c.m.surface, c.m.loopBlock);
    }
  }

  lemma DefaultLineDrawsNothing(c: Config, line: string, tokens: seq<string>)
    requires Captured(c.m) && Unhandled(line) && |tokens| >= 1
    ensures DefaultLine(c.m, c.body, line, tokens).state.surface == c.m.surface
  {
    if !c.m.insideMethod && !c.m.insideLoop {
      if IsMethodCall(tokens[0]) {
        var name := MethodName(tokens[0]);
        if name in c.m.methods {
          var body := Deref(c.m.lists, c.m.methods[name]);
          assert AllUnhandled(body);
          ReplayOfUnhandledLines(c.m.vars, c.m.surface, body);
        }
      } else {
        UnhandledLineFails(c.m.vars, c.m.surface, line);
      }
    }
  }

  /** No line of the code is a drawing command or `drawgrid`. */
  predicate DrawsNothing(code: seq<string>) {
    forall k :: 0 <= k < |code| ==> Keyword(code[k]) !in DrawKeywords && Keyword(code[k]) != "drawgrid"
  }

  lemma {:induction false} RunLinesKeepsCaptured(knownColors: set<string>, c: Config, lines: seq<string>, i: nat)
    requires i <= |lines| && Captured(c.m) && DrawsNothing(lines)
    ensures Captured(RunLines(knownColors, c, lines, i).state.m)
    ensures RunLines(knownColors, c, lines, i).state.m.surface == c.m.surface
    decreases |lines| - i
  {
    if i < |lines| {
      var step := ExecuteLine(knownColors, c, lines[i]);
      CapturedPreserved(knownColors, c, lines[i]);
      ReplayNeverDraws(knownColors, c, lines[i]);
      if step.outcome.Done? {
        RunLinesKeepsCaptured(knownColors, step.state, lines, i + 1);
      }
    }
  }

  /**
   * Runs keep the invariant, and a program without drawing lines leaves the
   * surface as it found it, however its loops and method calls are arranged,
   * and whatever earlier runs captured.
   */
  lemma ProgramWithoutDrawingLinesDrawsNothing(knownColors: set<string>, m: Machine, code: seq<string>)
    requires Captured(m) && DrawsNothing(code)
    ensures Captured(Program(knownColors, m, code).state)
    ensures Program(knownColors, m, code).state.surface == m.surface
  {
    var lines := RemoveEmpty(code);
    RemoveEmptyShape(code);
    assert DrawsNothing(lines) by {
      forall k | 0 <= k < |lines| ensures Keyword(lines[k]) !in DrawKeywords && Keyword(lines[k]) != "drawgrid" {
        assert lines[k] in code;
      }
    }
    var c := Start(m);
    assert Captured(c.m) by {
      forall k | 0 <= k < |c.m.lists| ensures AllUnhandled(c.m.lists[k]) {
        if k < |m.lists| {
          assert c.m.lists[k] == m.lists[k];
        }
      }
    }
    RunLinesKeepsCaptured(knownColors, c, lines, 0);
  }

  /** A newly constructed parser satisfies the invariant. */
  lemma FreshIsCaptured()
    ensures Captured(Fresh)
  {
  }
}
