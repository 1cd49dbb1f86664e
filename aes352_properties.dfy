/**
 * What the index-jumping ExecuteProgram (AES352/CommandParser.cs) does with
 * counted loops and conditional blocks, and what happens to them once they
 * are composed with the block finders and condition evaluator of
 * part2/CommandParser.cs.
 */
module Aes352Properties {
  import opened Outcomes
  import opened Text
  import opened Numbers
  import opened Canvas
  import opened Blocks
  import Evaluator
  import opened Aes352Commands
  import opened Aes352Semantics

  /**
   * The number of times a `loop n` line replays its block: none when n is
   * below one, otherwise the whole part of n, the largest whole number not
   * above it.
   */
  function Times(count: real): (n: nat)
    ensures Truncate(count) <= 0 ==> n == 0
    ensures Truncate(count) > 0 ==> n == Truncate(count)
    ensures count < 1.0 ==> n == 0
    ensures count >= 1.0 ==> 1 <= n && n as real <= count < n as real + 1.0
  {
    if Truncate(count) <= 0 then 0 else Truncate(count)
  }

  /** A line whose switch key is `opener` counts as an opener for the block finders. */
  lemma KeywordOpens(line: string, m: Marker)
    requires !m.wholeLine && Keyword(line) == m.opener
    ensures Delta(m, line) == 1
  {
    var t := Trim(line);
    var token := Split(t, ' ')[0];
    LineStartsWithToken(t);
    LowerShape(t);
    LowerShape(token);
    assert Lower(t)[..|token|] == Lower(token);
  }

  /**
   * `loop n` whose end the finder locates: the lines strictly between the
   * loop line and that end run through ExecuteCommand, in order, (int)n
   * times (no time at all when (int)n <= 0); the variables stay as they
   * were, and `i` is left at the end, so that the run resumes at the line
   * after it.
   */
  lemma LoopRunsBody(m: Machine, lines: seq<string>, i: nat, count: real)
    requires i < |lines| && Keyword(lines[i]) == "loop" && |Tokens(lines[i])| >= 2
    requires ParseFloat(m.vars, Tokens(lines[i])[1]) == Ok(count)
    requires MatchingEnd(LoopMarker, lines, i).Some?
    ensures i < MatchingEnd(LoopMarker, lines, i).value
    ensures var end := MatchingEnd(LoopMarker, lines, i).value;
      var e := RunCommands(m.vars, m.surface, Copies(lines[i + 1..end], Times(count)));
      ExecuteLine(m, lines, i) == Step(Effect(Machine(m.vars, e.state), e.outcome), end)
    ensures Truncate(count) <= 0 ==>
      ExecuteLine(m, lines, i) == Step(Effect(m, Done), MatchingEnd(LoopMarker, lines, i).value)
  {
    var end := MatchingEnd(LoopMarker, lines, i).value;
    EndFollowsOpener(lines, i, LoopMarker);
    LoopCase(m, lines, i);
    LoopLineRepeats(m, lines, i, Tokens(lines[i]), count, end);
  }

  /** A line whose key is `loop` takes the `loop` case. */
  lemma LoopCase(m: Machine, lines: seq<string>, i: nat)
    requires i < |lines| && Keyword(lines[i]) == "loop"
    ensures ExecuteLine(m, lines, i) == LoopLine(m, lines, i, Tokens(lines[i]))
  {
    CaseOfShape("loop");
  }

  /** The `loop` case itself, once the count is read and the end found. */
  lemma LoopLineRepeats(m: Machine, lines: seq<string>, i: nat, parts: seq<string>, count: real, end: nat)
    requires |parts| >= 2 && ParseFloat(m.vars, parts[1]) == Ok(count)
    requires MatchingEnd(LoopMarker, lines, i) == Some(end) && i < end
    ensures var e := RunCommands(m.vars, m.surface, Copies(lines[i + 1..end], Times(count)));
      LoopLine(m, lines, i, parts) == Step(Effect(Machine(m.vars, e.state), e.outcome), end)
    ensures Truncate(count) <= 0 ==> LoopLine(m, lines, i, parts) == Step(Effect(m, Done), end)
  {
    RepeatRunsCopies(m.vars, m.surface, lines[i + 1..end], Truncate(count));
  }

  /** The end a finder locates from an opener lies past the opener. */
  lemma EndFollowsOpener(lines: seq<string>, i: nat, m: Marker)
    requires i < |lines| && !m.wholeLine && Keyword(lines[i]) == m.opener
    requires MatchingEnd(m, lines, i).Some?
    ensures i < MatchingEnd(m, lines, i).value
  {
    KeywordOpens(lines[i], m);
    DeltasAt(m, lines, i);
    assert Depth(Deltas(m, lines), i, i + 1) == 1;
  }

  /**
   * As composed, a loop with no spare `endloop` after its own never runs:
   * the finder, started on the `loop` line itself, counts that line as an
   * opener, so its own `endloop` only brings the count back to zero and,
   * with nothing closing after it, the search runs off the end and throws.
   */
  lemma TopLevelLoopFails(m: Machine, lines: seq<string>, i: nat, own: nat, count: real)
    requires i < |lines| && Keyword(lines[i]) == "loop" && |Tokens(lines[i])| >= 2
    requires ParseFloat(m.vars, Tokens(lines[i])[1]) == Ok(count)
    requires MatchingEnd(LoopMarker, lines, i + 1) == Some(own)
    requires MatchingEnd(LoopMarker, lines, own + 1) == None
    ensures ExecuteLine(m, lines, i) == Step(Effect(m, Fail(NoMatchingEnd(i))), i)
    ensures Run(m, lines, i) == Effect(m, Fail(NoMatchingEnd(i)))
  {
    KeywordOpens(lines[i], LoopMarker);
    ScanFromOuterOpenerFails(LoopMarker, lines, i, own);
    CaseOfShape("loop");
  }

  /**
   * As composed, every loop that runs at least once throws: the block the
   * finder returns, scanning from the `loop` line itself, holds that loop's
   * own `endloop`, which ExecuteCommand does not know. What the lines before
   * it drew stays drawn; `i` is left at the end.
   */
  lemma FoundLoopFails(m: Machine, lines: seq<string>, i: nat, count: real, end: nat)
    requires i < |lines| && Keyword(lines[i]) == "loop" && |Tokens(lines[i])| >= 2
    requires ParseFloat(m.vars, Tokens(lines[i])[1]) == Ok(count)
    requires MatchingEnd(LoopMarker, lines, i) == Some(end)
    requires Truncate(count) >= 1
    ensures LoopLine(m, lines, i, Tokens(lines[i])).effect.outcome.Fail?
    ensures ExecuteLine(m, lines, i).effect.outcome.Fail?
    ensures Run(m, lines, i).outcome.Fail?
  {
    var ds := Deltas(LoopMarker, lines);
    KeywordOpens(lines[i], LoopMarker);
    DeltasAt(LoopMarker, lines, i);
    var k := OpenedBlockHasCloser(ds, i, end);
    DeltasAt(LoopMarker, lines, k);
    var block := Between(lines, i, end);
    assert block[k - i - 1] == lines[k];
    CloserBlockFails(m.vars, m.surface, block, k - i - 1);
    LoopCase(m, lines, i);
  }

  /** Running a block that holds a loop closer throws, at that line or earlier. */
  lemma {:induction false} CloserBlockFails(vars: Store, s: Surface, block: seq<string>, k: nat)
    requires k < |block| && Delta(LoopMarker, block[k]) == -1
    ensures RunCommands(vars, s, block).outcome.Fail?
    decreases k
  {
    match ExecuteCommand(vars, s, block[0])
    case Err(_) =>
    case Ok(next) =>
      if k == 0 {
        CloserRejected(vars, s, block[0]);
      } else {
        assert block[1..][k - 1] == block[k];
        CloserBlockFails(vars, next, block[1..], k - 1);
      }
  }

  /** ExecuteCommand throws on a line the finders count as a loop closer. */
  lemma CloserRejected(vars: Store, s: Surface, line: string)
    requires Delta(LoopMarker, line) == -1
    ensures ExecuteCommand(vars, s, line) == Err(UnknownCommand(Split(line, ' ')[0]))
  {
    if Lower(Split(line, ' ')[0]) in CommandKeywords {
      KeywordLineLeads(line);
    }
    UnknownKeywordFails(vars, s, line);
  }

  /**
   * A line whose raw first token is one of ExecuteCommand's keywords starts
   * with that keyword once trimmed and lower-cased, and none of them starts
   * with the `e` of `endloop`.
   */
  lemma KeywordLineLeads(line: string)
    requires Lower(Split(line, ' ')[0]) in CommandKeywords
    ensures var t := Lower(Trim(line));
      t != [] && t[0] == Lower(Split(line, ' ')[0])[0] && t[0] != 'e'
  {
    var token := Split(line, ' ')[0];
    LowerShape(token);
    LineStartsWithToken(line);
    assert line[0] == token[0];
    assert !IsWhiteSpace(line[0]);
    assert TrimStart(line) == line;
    TrimEndShape(line);
    LowerShape(Trim(line));
  }

  /**
   * `if c` whose condition evaluates and whose end the finder locates: the
   * lines strictly between run once through ExecuteCommand when the
   * condition holds, none run when it does not, and in both cases `i` is
   * left at the end.
   */
  lemma IfRunsBlockOnce(m: Machine, lines: seq<string>, i: nat, parts: seq<string>, holds: bool, end: nat)
    requires i < end < |lines| && |parts| >= 2
    requires Evaluator.EvaluateCondition(m.vars, parts[1]) == Ok(holds)
    requires MatchingEnd(IfMarker, lines, i) == Some(end)
    ensures holds ==>
      var e := RunCommands(m.vars, m.surface, lines[i + 1..end]);
      IfLine(m, lines, i, parts) == Step(Effect(Machine(m.vars, e.state), e.outcome), end)
    ensures !holds ==> IfLine(m, lines, i, parts) == Step(Effect(m, Done), end)
  {
  }

  /**
   * As composed, every `if` line throws: parts[1] is one space-free token,
   * and EvaluateCondition demands three space-separated tokens. Nothing is
   * drawn and the program stops there.
   */
  lemma IfAlwaysFails(m: Machine, lines: seq<string>, i: nat)
    requires i < |lines| && Keyword(lines[i]) == "if"
    ensures var error := if |Tokens(lines[i])| < 2 then IndexOutOfRange else InvalidConditionFormat;
      && ExecuteLine(m, lines, i) == Step(Effect(m, Fail(error)), i)
      && Run(m, lines, i) == Effect(m, Fail(error))
  {
    var parts := Tokens(lines[i]);
    CaseOfShape("if");
    if |parts| >= 2 {
      SplitAnyPieces(Trim(lines[i]), {' '});
      assert Avoids(parts[1], {' '});
      Evaluator.SingleTokenConditionFails(m.vars, parts[1]);
    }
  }

  /**
   * Any key but the thirteen the switch knows throws "Unknown command" and
   * ends the program; `endloop` and `endif` are among them, so reaching one
   * of those at the top level is an error too.
   */
  lemma UnknownKeywordStops(m: Machine, lines: seq<string>, i: nat)
    requires i < |lines|
    requires Keyword(lines[i]) !in CommandKeywords + {"set", "usevar", "loop", "if"}
    ensures Run(m, lines, i) == Effect(m, Fail(UnknownCommand(Tokens(lines[i])[0])))
  {
    CaseOfShape(Keyword(lines[i]));
  }

  /** Only a `set` line changes the variables, and it binds exactly the named one. */
  lemma OnlySetAssigns(m: Machine, lines: seq<string>, i: nat)
    requires i < |lines|
    ensures Keyword(lines[i]) != "set" ==> ExecuteLine(m, lines, i).effect.state.vars == m.vars
    ensures var parts := Tokens(lines[i]);
      Keyword(lines[i]) == "set" && ExecuteLine(m, lines, i).effect.outcome.Done? ==>
        && |parts| >= 3
        && ExecuteLine(m, lines, i).effect.state.vars
           == SetVariable(m.vars, parts[1], ParseFloat(m.vars, parts[2]).value)
  {
    CaseOfShape(Keyword(lines[i]));
  }
}
