# CommandParser — a verified model of a drawing-language interpreter

The repository holds two versions of `CommandParser`, a class that runs a small
drawing language typed into a text box, one command per line (`moveto 10 20`,
`drawto 30 40`, `rectangle 5 6`, `circle 7`, `triangle …`, `fill on`, `set x 5`,
`loop 3 … endloop`, `if x > 2 … endif`, `method m … endmethod`, `m()`):

* `part2/CommandParser.cs` is the **flag-driven** interpreter. `ExecuteProgram` visits
  every line once. It keeps flags (`isInsideIfBlock`, `isInsideLoop`,
  `isInsideMethod`) and capture lists (`loopBlock`, the local `currentMethodBody`).
  A captured loop is replayed once at `endloop`. A captured method is registered at
  `endmethod` and replayed when it is called.
* `AES352/CommandParser.cs` is the **index-jumping** interpreter. `ExecuteProgram`
  walks the lines with an index. At a `loop` or `if` it locates the closing line,
  runs the lines between through `ExecuteCommand`, and jumps the index past them.

The model is made of these parts:

* **Value modules.**
  * `Outcomes`: every exception becomes an `Err`/`Fail` value naming the throw site.
  * `Text`: `Trim`, `ToLower`, `Split`, `Replace`, `StartsWith`.
  * `Numbers`: `float.TryParse`, `float.Parse`, `int.Parse` and the `(int)` cast, over decimal literals.
  * `Canvas`: the pen, the cursor and the fill flag. Every drawing call appends an event to a trace.
  * `Blocks`: `FindEndLoopIndex`, `FindEndIfIndex` and the line test of `SkipToEndIf`.
  * `Syntax`: `CheckSyntax` and `IsValidCommand`, the same in both files.
  * `Parameters`: `ReplaceParameters`.
  * `Evaluator`: `ParseFloat`, `GetOperandValue`, `CheckIfCondition`, `EvaluateCondition`,
    `SetVariable` and `UseVariable` of part2.
* **Specification functions.**
  * `Part2Commands` and `Part2Semantics` describe part2's `ExecuteCommand` and one
    pass of `ExecuteProgram`'s `foreach` body.
  * `Aes352Commands` and `Aes352Semantics` do the same for AES352.
  * The lists part2 stores by reference live in an explicit heap. A method
    registered under a name and the capture list `ExecuteProgram` clears afterwards
    are therefore the same list, as in C#.
* **The two classes.**
  * `Part2Parser.CommandParser` and `Aes352Parser.CommandParser` have the C#
    fields. Their methods update those fields in place.
  * Each method is proved to leave exactly the state that the specification
    functions give.
* **Properties.** The properties of the specification functions are proved in
  `Part2Properties`, `Aes352Properties` and beside the functions themselves.

Several proved lemmas record what the code does as written:

* Part2's `CallMethod` replays an empty list unless a repeated definition failed.
  `ExecuteProgram` clears the list it has just registered. When `DefineMethod`
  throws on a name that is already taken, the clear is skipped and the list stays filled.
* Part2's `color` passes `CheckSyntax` but `ExecuteCommand` rejects it.
* In AES352, `rectangle` needs four arguments to pass `CheckSyntax` but only reads two.
* In AES352, an `if` line always throws.
* In AES352, every `loop` that runs at least once throws. The finder starts on the
  `loop` line itself, so the block it returns holds that loop's own `endloop`, and
  `ExecuteCommand` rejects that line. A `loop` never finds its end unless a spare
  `endloop` follows its own. The only loop that completes has a count that casts
  to zero or less and a spare `endloop` after its own.

## Model

| member | source | states |
|---|---|---|
| Numbers.StrictArg | part2/CommandParser.cs:165-187 | `float.Parse(parts[i])`: past the end of the tokens it is an index error; otherwise it succeeds exactly when the token is a decimal literal, with that literal's value |
| Numbers.ParseInteger | part2/CommandParser.cs:190 | `int.Parse` accepts only values inside the 32-bit range |
| Numbers.Truncate | AES352/CommandParser.cs:80 | the `(int)` cast rounds toward zero: the result is within one of the input, on the side nearer zero |
| Numbers.ParseNumberShowInt | part2/CommandParser.cs:608 | `float.TryParse` reads every integer's decimal spelling back as the same value (round trip) |
| Numbers.ParseIntegerShowInt | part2/CommandParser.cs:190 | `int.Parse` reads every 32-bit integer's decimal spelling back as the same integer (round trip) |
| Numbers.LiteralCharacters | part2/CommandParser.cs:608 | a string `float.TryParse` accepts holds only digits, signs, a point and surrounding white space |
| Canvas.MoveTo | part2/CommandParser.cs:697-700 | the cursor moves to (x, y); nothing is drawn and the pen and fill stay |
| Canvas.DrawTo | part2/CommandParser.cs:702-707 | one line in the current pen from the old cursor to (x, y) is drawn, and the cursor moves there |
| Canvas.Clear | part2/CommandParser.cs:709-713 | the surface is wiped and the cursor returns to the origin; the pen and fill stay |
| Canvas.ResetPenPosition | part2/CommandParser.cs:774-777 | the cursor returns to the origin and nothing else changes |
| Canvas.ToggleFill | part2/CommandParser.cs:779-782 | fill is on exactly when the argument lower-cases to "on"; nothing else changes |
| Canvas.SetPen | part2/CommandParser.cs:767-771 | the pen becomes the given colour; the cursor, trace and fill stay |
| Canvas.DrawRectangle | part2/CommandParser.cs:715-721 | one rectangle at the cursor, with the given width and height, filled exactly when fill is on |
| Canvas.DrawCircle | part2/CommandParser.cs:723-729 | one ellipse of width and height 2·radius centred on the cursor, filled exactly when fill is on |
| Canvas.DrawTriangle | part2/CommandParser.cs:731-738 | one polygon through the three points in order, filled exactly when fill is on |
| Canvas.DrawText | part2/CommandParser.cs:407-415 | one text event with the content at the cursor; the cursor does not move |
| Canvas.DrawGridlines | part2/CommandParser.cs:740-762 | one grid event with the spacing; the cursor, pen and fill stay |
| Canvas.DrawPathTrace | part2/CommandParser.cs:702-707 | successive `drawto`s draw the chain of segments through the points, each from the previous end, and leave the cursor on the last point |
| Canvas.FillChangesStyleOnly | part2/CommandParser.cs:715-738 | the fill flag changes only whether a shape is filled, never its outline |
| Canvas.ClearAndResetForgetPosition | part2/CommandParser.cs:709-713 | after `clear` or `reset` a preceding `moveto` leaves no trace in the state |
| Blocks.Delta | part2/CommandParser.cs:509-518 | each line moves the opener/closer counter by at most one |
| Blocks.Scan | part2/CommandParser.cs:507-523 | the scan from `start` returns the first line at which closers outnumber openers, or fails exactly when there is none |
| Blocks.MatchingEnd | part2/CommandParser.cs:504-524 | the index found closes the block opened at `start` (first line where the counter drops below zero); none exactly when the block is unclosed |
| Blocks.FindEndIndex | part2/CommandParser.cs:504-524 | the loop over the lines returns the closing index, or throws "no matching end" exactly when the block is unclosed |
| Blocks.FindEndLoopIndex | part2/CommandParser.cs:504-524 | returns the `endloop` that `MatchingEnd` specifies, or throws when it is None |
| Blocks.FindEndIfIndex | part2/CommandParser.cs:528-548 | returns the `endif` that `MatchingEnd` specifies, or throws when it is None |
| Blocks.MatchingEndComplete | part2/CommandParser.cs:504-524 | completeness: any index that closes the block is the one the scan returns |
| Blocks.UnclosedHasNoEnd | part2/CommandParser.cs:523 | when no line closes the block, the finder throws |
| Blocks.ScanFromOpenerOvershoots | part2/CommandParser.cs:507-523 | a scan started on an opener line does not stop at that opener's own closer but further on |
| Blocks.OpenedBlockHasCloser | part2/CommandParser.cs:507-523 | the block that a scan started on an opener finds holds that opener's own closer, strictly between the two |
| Blocks.NegativeDepthHasCloser | part2/CommandParser.cs:507-523 | a run of lines with more closers than openers contains a closer |
| Blocks.ScanFromOuterOpenerFails | part2/CommandParser.cs:507-523 | a scan started on an opener whose own closer is the last closer finds nothing |
| Syntax.IsValidCommand | part2/CommandParser.cs:662-695 | an accepted command has a checked keyword (`color`, not `setcolor`) and exactly that keyword's token count |
| Syntax.FirstInvalidLine | part2/CommandParser.cs:649-661 | `CheckSyntax` finds the first non-empty line that fails `IsValidCommand`, with all lines before it valid, or reports all lines valid |
| Syntax.NumericCommandsAreValid | part2/CommandParser.cs:671-679 | every numeric command written with the expected number of integer arguments passes the check |
| Syntax.ArityIsExact | part2/CommandParser.cs:671-686 | appending an argument to a valid command makes it invalid: the token count is exact, not a minimum |
| Parameters.Binding | part2/CommandParser.cs:589-590 | a parameter binds exactly when it splits on '=' into two pieces |
| Parameters.Substitute | part2/CommandParser.cs:585-596 | each well-formed binding, in order, replaces its trimmed key by its trimmed value; it fails only on an empty key |
| Parameters.ReplaceParameters | part2/CommandParser.cs:585-596 | the loop over the parameters computes `Substitute` |
| Parameters.SubstituteAppend | part2/CommandParser.cs:587-594 | substituting two lists of bindings in turn equals substituting their concatenation |
| Parameters.SubstituteIgnoresMalformed | part2/CommandParser.cs:589 | bindings without exactly one '=' leave the command unchanged |
| Parameters.BindingOfAssignment | part2/CommandParser.cs:588-592 | `a=b` binds key `a` to value `b` |
| Parameters.SubstituteRemovesKey | part2/CommandParser.cs:592 | after `c=v` no `c` remains in the command |
| Parameters.SubstituteSwapBack | part2/CommandParser.cs:587-594 | `a=b` followed by `b=a` restores a command that held no `b` (round trip) |
| Parameters.SubstituteAbsentKey | part2/CommandParser.cs:592 | a binding whose key does not occur leaves the command unchanged |
| Evaluator.GetOperandValue | part2/CommandParser.cs:90-107 | a variable's value first, else the literal's; otherwise an "invalid operand" error naming it |
| Evaluator.ParseFloat | part2/CommandParser.cs:599-636 | it fails with "empty" exactly on blank input; every other failure names the trimmed input or a bad operand |
| Evaluator.Compare | part2/CommandParser.cs:57-72 | defined exactly for the six operators; any other operator is an "invalid operator" error |
| Evaluator.CheckIfCondition | part2/CommandParser.cs:34-88 | without a comparison sign it succeeds exactly on a variable, meaning value ≠ 0; with one it needs exactly three tokens |
| Evaluator.EvaluateCondition | part2/CommandParser.cs:552-572 | anything but three space-separated tokens is a format error |
| Evaluator.UseVariable | part2/CommandParser.cs:495-502 | succeeds exactly for a defined variable, with its value; otherwise "not found" naming it |
| Evaluator.AssignVariable | part2/CommandParser.cs:370-379 | a blank expression throws; otherwise it succeeds exactly when ParseFloat does, binding only `name` to that value |
| Evaluator.LiteralShadowsVariable | part2/CommandParser.cs:606-611 | a literal is read as a number even when a variable has that name |
| Evaluator.VariableResolves | part2/CommandParser.cs:613-617 | a non-literal defined name reads as the variable's value |
| Evaluator.ProductOfOperands | part2/CommandParser.cs:619-633 | a two-operand expression evaluates to the product when it contains '*', and is unparsable otherwise |
| Evaluator.Arithmetic | part2/CommandParser.cs:619-635 | the expression rule fails only with the unparsable text or with an operand's own error |
| Evaluator.Combine | part2/CommandParser.cs:622-635 | combining two operand lookups fails only with the unparsable text or with one of the lookups' own errors |
| Evaluator.ArithmeticProduct | part2/CommandParser.cs:619-635 | when the text splits into two operands that both resolve, the rule gives their product if the text holds '*' and reports the text unparsable otherwise |
| Evaluator.CombineProduct | part2/CommandParser.cs:626-635 | two resolved operands give their product around a '*' and the unparsable-text error otherwise |
| Evaluator.OnlyProductComputed | part2/CommandParser.cs:599-636 | anything ParseFloat accepts is a literal, a variable or contains '*' |
| Evaluator.SignOfSecondOperandLost | part2/CommandParser.cs:620-628 | `2*-3` evaluates to 6: the split on '-' drops the second operand's sign |
| Evaluator.ProductIsNoLiteral | part2/CommandParser.cs:608 | `2*-3` is not a float literal |
| Evaluator.NegativeFactorPieces | part2/CommandParser.cs:620 | splitting `2*-3` on the operators leaves the pieces `2` and `3` |
| Evaluator.ParseFloatShowInt | part2/CommandParser.cs:608 | every integer's spelling evaluates to that integer |
| Evaluator.NegationFlips | part2/CommandParser.cs:57-72 | each operator has a complement whose comparison is always the opposite |
| Evaluator.ConditionsAgree | part2/CommandParser.cs:552-572 | on a three-token comparison, EvaluateCondition and CheckIfCondition give the same result |
| Evaluator.CompareCondition | part2/CommandParser.cs:37-72 | `left op right` evaluates both operands through ParseFloat, left error first, then compares them |
| Evaluator.ConditionShape | part2/CommandParser.cs:40 | `left op right` splits back into its three tokens and mentions a comparison |
| Evaluator.SingleTokenConditionFails | part2/CommandParser.cs:552-571 | a condition without a space is always a format error |
| Evaluator.SetThenRead | part2/CommandParser.cs:370-379 | after a successful `set`, reading the name gives the assigned value |
| Evaluator.AssignKeepsOthers | part2/CommandParser.cs:378 | `set` leaves every other variable as it was |
| Text.Tokens | part2/CommandParser.cs:137 | a line, trimmed and split on single spaces (both files split their lines so), has at least one token, so `parts[0]` never throws |
| Part2Commands.ArgValue | part2/CommandParser.cs:338 | an argument is the value of its trimmed token when that is a literal, even if a variable has that name; otherwise it is the value of the variable the token names; a blank token throws |
| Part2Commands.ColourArg | part2/CommandParser.cs:356 | `setcolor name alpha` succeeds exactly when alpha is an integer in 0..255, giving that named colour with that alpha |
| Part2Commands.ExecuteCommand | part2/CommandParser.cs:332-368 | a command only appends to the drawing trace; it never rewrites it |
| Part2Commands.UnknownKeywordFails | part2/CommandParser.cs:364-365 | any first token outside the nine keywords throws "unknown command" naming that token |
| Part2Commands.RunCommands | part2/CommandParser.cs:452-462 | replaying a list of commands only appends to the trace |
| Part2Commands.RunCommandsStep | part2/CommandParser.cs:455-459 | a replay runs the first command, stops at its error, and otherwise goes on with the rest |
| Part2Commands.Radius | part2/CommandParser.cs:177-184 | `circle`'s radius is the variable's value when the token names one |
| Part2Commands.DrawCommand | part2/CommandParser.cs:165-200 | a drawing case only appends to the trace; `text` draws the rest of the line joined by spaces |
| Part2Commands.UnhandledLineFails | part2/CommandParser.cs:299-316 | a line the switch does not know reaches ExecuteCommand and throws "unknown command" |
| Part2Commands.ReplayOfUnhandledLines | part2/CommandParser.cs:452-462 | replaying unknown lines draws nothing and fails on the first line, if there is one |
| Part2Commands.NumericCommandsExecute | part2/CommandParser.cs:337-353 | every numeric command with the right integer arguments does exactly its drawing operation on those values |
| Part2Commands.ExecuteWithArguments | part2/CommandParser.cs:337-353 | a numeric command whose arguments all evaluate does exactly its drawing operation on them, ignoring extra tokens |
| Part2Commands.DrawWithArguments | part2/CommandParser.cs:165-188 | a numeric drawing case whose arguments all parse (`circle` reading a variable first) does exactly its drawing operation on them, ignoring extra tokens |
| Part2Commands.DrawOtherCommands | part2/CommandParser.cs:171-200 | `clear` and `reset` always succeed; `setcolor` sets the pen to the colour built from its arguments or throws as that does; `fill` toggles the fill on its argument or throws when it is missing |
| Part2Commands.ColorPassesCheckButNotExecution | part2/CommandParser.cs:680-681 | `color Red` passes CheckSyntax, yet ExecuteCommand throws "unknown command" on it and the program switch does not know it |
| Part2Commands.ColorIsValid | part2/CommandParser.cs:680-681 | `color Red` passes the syntax check when Red is a known colour |
| Part2Commands.ColorRejected | part2/CommandParser.cs:364-365 | ExecuteCommand throws "unknown command: color" on `color Red` |
| Part2Commands.ColorUnhandled | part2/CommandParser.cs:299-316 | `color Red` falls to the switch's default case |
| Part2Commands.ColorIsNotSwitchKeyword | part2/CommandParser.cs:163-298 | `color` is none of the switch's cases |
| Part2Semantics.DefineMethod | part2/CommandParser.cs:423-433 | registers the list under a new name and keeps every other entry; a taken name throws |
| Part2Semantics.CallMethod | part2/CommandParser.cs:435-450 | an unknown name (after trimming the brackets) throws; a known one replays its registered list |
| Part2Semantics.IfLine | part2/CommandParser.cs:141-148 | an `if` line sets the in-if flag and skips exactly when the joined condition is false; an error in the condition stops the run |
| Part2Semantics.VariableLine | part2/CommandParser.cs:201-214 | `set` with fewer than two arguments throws; `usevar` changes nothing; no variable is ever removed |
| Part2Semantics.DisplayLine | part2/CommandParser.cs:215-238 | `bgcolor` and `drawgrid` touch only the background or the trace; a missing argument changes nothing |
| Part2Semantics.BlockLine | part2/CommandParser.cs:252-297 | loop and method markers keep the variables and the in-if flag, and allocate no list |
| Part2Semantics.DefaultLine | part2/CommandParser.cs:299-316 | the default case keeps the variables, methods and in-if flag |
| Part2Semantics.CaseOfShape | part2/CommandParser.cs:163-316 | which keywords reach which group of switch cases; all others reach `default` |
| Part2Semantics.ExecuteLine | part2/CommandParser.cs:135-318 | one pass of the body keeps the run's capture list and allocates no list |
| Part2Semantics.RunLines | part2/CommandParser.cs:135-319 | the whole `foreach` keeps the capture list and allocates no list |
| Part2Semantics.Start | part2/CommandParser.cs:132 | a run starts with a fresh, empty capture list |
| Part2Semantics.Program | part2/CommandParser.cs:127-328 | a run allocates exactly one list, its capture list |
| Part2Properties.SkippedLinesChangeNothing | part2/CommandParser.cs:158-161 | while skipping, every line other than `if`/`endif` changes nothing |
| Part2Properties.EndifClearsSkip | part2/CommandParser.cs:150-155 | `endif` clears the in-if and skip flags and does nothing else |
| Part2Properties.SkipToNextEndif | part2/CommandParser.cs:158-161 | while skipping, a run of such lines is passed over as a whole |
| Part2Properties.SkipOneLine | part2/CommandParser.cs:158-161 | while skipping, one such line is passed over |
| Part2Properties.FalseIfSkipsItsBlock | part2/CommandParser.cs:140-161 | a false `if` makes the run resume after the next `endif`, with nothing between executed |
| Part2Properties.IfDecidesSkip | part2/CommandParser.cs:140-147 | after `if c` the lines run exactly when c holds |
| Part2Properties.BlockErrors | part2/CommandParser.cs:252-297 | a nested `loop`, an unmatched `endloop` and an unmatched `endmethod` throw and change nothing |
| Part2Properties.LoopBodyReplayedOnce | part2/CommandParser.cs:263-272 | `endloop` replays the captured lines exactly once and leaves the loop on success |
| Part2Properties.NestedMethodCheckTestsTheList | part2/CommandParser.cs:274-285 | `method` succeeds exactly when the capture list is empty, and then starts capturing under the name |
| Part2Properties.MethodBodyEmptiedAfterDefinition | part2/CommandParser.cs:286-297 | `endmethod` registers the capture list itself under a new name, and that list is then empty; a taken name throws |
| Part2Properties.CallTokenRoundTrip | part2/CommandParser.cs:417-420 | `name()` is a call token and names `name` again (round trip) |
| Part2Properties.ExecuteLineExtends | part2/CommandParser.cs:135-318 | one pass of the body removes no variable and changes no registered method |
| Part2Properties.RunLinesExtends | part2/CommandParser.cs:135-319 | the whole run removes no variable and changes no registered method |
| Part2Properties.ProgramKeepsRegistry | part2/CommandParser.cs:127-328 | `ExecuteProgram` keeps every variable and every method registration it found |
| Part2Properties.CapturedPreserved | part2/CommandParser.cs:299-316 | every line keeps the invariant `Captured`: each line held in a method body or in the loop buffer is one that reached the default case |
| Part2Properties.OtherLinesKeepLists | part2/CommandParser.cs:135-298 | skipped lines, `if`/`endif` and every case before the loop and method markers leave the lists and the loop buffer as they were |
| Part2Properties.BlockLineKeepsCaptured | part2/CommandParser.cs:252-297 | the block markers keep `Captured`: they capture no line of their own |
| Part2Properties.DefaultLineKeepsCaptured | part2/CommandParser.cs:299-316 | the default case keeps `Captured`: the only line it captures is the one that reached it |
| Part2Properties.ReplayNeverDraws | part2/CommandParser.cs:299-316 | under the invariant, a line that is no drawing case (a method call included) leaves the drawing unchanged |
| Part2Properties.BlockLineDrawsNothing | part2/CommandParser.cs:252-297 | the block markers draw nothing under the invariant |
| Part2Properties.DefaultLineDrawsNothing | part2/CommandParser.cs:299-316 | an unknown line in the default case draws nothing under the invariant |
| Part2Properties.RunLinesKeepsCaptured | part2/CommandParser.cs:135-319 | a run of non-drawing lines keeps the invariant and draws nothing |
| Part2Properties.ProgramWithoutDrawingLinesDrawsNothing | part2/CommandParser.cs:127-328 | a program without drawing lines draws nothing, however its methods are defined and called |
| Part2Properties.FreshIsCaptured | part2/CommandParser.cs:110-124 | a newly constructed parser satisfies the invariant |
| Part2Parser.CommandParser.constructor | part2/CommandParser.cs:110-124 | the pen is black, the cursor is at the origin, and there are no variables, methods or open blocks |
| Part2Parser.CommandParser.MoveTo | part2/CommandParser.cs:697-700 | the fields change exactly as `Canvas.MoveTo` |
| Part2Parser.CommandParser.DrawTo | part2/CommandParser.cs:702-707 | the fields change exactly as `Canvas.DrawTo` |
| Part2Parser.CommandParser.Clear | part2/CommandParser.cs:709-713 | the fields change exactly as `Canvas.Clear` |
| Part2Parser.CommandParser.DrawRectangle | part2/CommandParser.cs:715-721 | the fields change exactly as `Canvas.DrawRectangle` |
| Part2Parser.CommandParser.DrawCircle | part2/CommandParser.cs:723-729 | the fields change exactly as `Canvas.DrawCircle` |
| Part2Parser.CommandParser.DrawTriangle | part2/CommandParser.cs:731-738 | the fields change exactly as `Canvas.DrawTriangle` |
| Part2Parser.CommandParser.DrawText | part2/CommandParser.cs:407-415 | the fields change exactly as `Canvas.DrawText` |
| Part2Parser.CommandParser.DrawGridlines | part2/CommandParser.cs:740-762 | the fields change exactly as `Canvas.DrawGridlines` |
| Part2Parser.CommandParser.SetColor | part2/CommandParser.cs:767-771 | the pen becomes the given colour |
| Part2Parser.CommandParser.ResetPenPosition | part2/CommandParser.cs:774-777 | the fields change exactly as `Canvas.ResetPenPosition` |
| Part2Parser.CommandParser.ToggleFill | part2/CommandParser.cs:779-782 | the fields change exactly as `Canvas.ToggleFill` |
| Part2Parser.CommandParser.ExecuteCommand | part2/CommandParser.cs:332-368 | draws what `Part2Commands.ExecuteCommand` gives, or throws its error with the drawing unchanged |
| Part2Parser.CommandParser.ExecuteEach | part2/CommandParser.cs:441-444 | the `foreach` over a list's commands ends in the state and outcome `RunCommands` gives |
| Part2Parser.CommandParser.RepeatLoopBlock | part2/CommandParser.cs:452-462 | the one-pass outer loop replays the block exactly as `RunCommands` |
| Part2Parser.CommandParser.CallMethod | part2/CommandParser.cs:435-450 | the call ends as `Part2Semantics.CallMethod` says |
| Part2Parser.CommandParser.DefineMethod | part2/CommandParser.cs:423-433 | the registry changes as `Part2Semantics.DefineMethod` says, or the call throws with nothing changed |
| Part2Parser.CommandParser.SetVariable | part2/CommandParser.cs:370-379 | the variables change as `AssignVariable` says, or the call throws with nothing changed |
| Part2Parser.CommandParser.ChangeBackgroundColor | part2/CommandParser.cs:479-490 | a known colour name, in any case, becomes the background; any other name throws with nothing changed |
| Part2Parser.CommandParser.ReadNextLine | part2/CommandParser.cs:464-478 | returns the line at the index and advances it, or null at the end with the index unchanged |
| Part2Parser.CommandParser.SkipToEndIf | part2/CommandParser.cs:382-405 | reads up to and past the `endif` matching whole-line `if`/`endif`, or throws once the lines run out |
| Part2Parser.CommandParser.DrawCommand | part2/CommandParser.cs:165-200 | a drawing case ends as `Part2Commands.DrawCommand` says |
| Part2Parser.CommandParser.VariableLine | part2/CommandParser.cs:201-214 | `set` and `usevar` end as `Part2Semantics.VariableLine` says |
| Part2Parser.CommandParser.DisplayLine | part2/CommandParser.cs:215-238 | `bgcolor` and `drawgrid` end as `Part2Semantics.DisplayLine` says |
| Part2Parser.CommandParser.BlockLine | part2/CommandParser.cs:252-297 | the loop and method markers end as `Part2Semantics.BlockLine` says |
| Part2Parser.CommandParser.DefaultLine | part2/CommandParser.cs:299-316 | the default case ends as `Part2Semantics.DefaultLine` says |
| Part2Parser.CommandParser.ExecuteLine | part2/CommandParser.cs:137-318 | one pass of the `foreach` body ends as `Part2Semantics.ExecuteLine` says |
| Part2Parser.CommandParser.ExecuteProgram | part2/CommandParser.cs:127-328 | the whole run ends as `Part2Semantics.Program` says |
| Aes352Commands.ParseFloatResolves | AES352/CommandParser.cs:167-177 | a variable is looked up before the literal is parsed; anything neither a variable nor a literal throws "unable to parse" |
| Aes352Commands.SetVariable | AES352/CommandParser.cs:153-156 | binds the name to the value and keeps every other variable |
| Aes352Commands.ArgValue | AES352/CommandParser.cs:120-137 | an argument naming a variable is that variable's value, even if it reads as a number; any other token is its literal value, and a token that is neither throws |
| Aes352Commands.ExecuteCommand | AES352/CommandParser.cs:115-151 | a command only appends to the drawing trace |
| Aes352Commands.ExecuteWithArguments | AES352/CommandParser.cs:120-137 | a numeric command whose arguments all resolve does exactly its drawing operation on them, ignoring extra tokens |
| Aes352Commands.ExecuteOtherCommands | AES352/CommandParser.cs:126-146 | `clear` and `reset` always succeed; `color` sets the pen to the named colour and `fill` toggles the fill on its argument, each throwing when that argument is missing |
| Aes352Commands.UnknownKeywordFails | AES352/CommandParser.cs:147-148 | any first token outside the nine keywords throws "unknown command" |
| Aes352Commands.RunCommands | AES352/CommandParser.cs:84-87 | the inner `for k` loop only appends to the trace |
| Aes352Commands.Repeat | AES352/CommandParser.cs:82-88 | a count of zero or less runs nothing; repeating only appends to the trace |
| Aes352Commands.RunCommandsAppend | AES352/CommandParser.cs:84-87 | running two lists in turn equals running their concatenation, stopping at the first error |
| Aes352Commands.RepeatRunsCopies | AES352/CommandParser.cs:82-88 | repeating a block n times equals running n copies of it back to back |
| Aes352Commands.RepeatAdds | AES352/CommandParser.cs:82-88 | repeating a+b times equals repeating a times and then b times |
| Aes352Commands.VariableWins | AES352/CommandParser.cs:169-172 | a variable named like a number hides the number |
| Aes352Commands.SetThenRead | AES352/CommandParser.cs:153-165 | after `set` the name reads back as the value and every other name reads as before |
| Aes352Commands.ValidCommandsExecute | AES352/CommandParser.cs:202-235 | every command that passes CheckSyntax executes without throwing |
| Aes352Commands.ValidArguments | AES352/CommandParser.cs:202-235 | a valid command has a known keyword, that keyword's token count, and numeric literals for arguments |
| Aes352Commands.ResolvedArgumentsExecute | AES352/CommandParser.cs:115-151 | a known keyword with the right token count, and numeric arguments that all resolve, executes |
| Aes352Commands.LiteralsResolve | AES352/CommandParser.cs:174-175 | literal arguments always resolve, whatever the variables are |
| Aes352Commands.RectangleArityDiffers | AES352/CommandParser.cs:214-215 | `rectangle w h` fails CheckSyntax, which asks for four arguments, yet executes and draws the w by h rectangle |
| Aes352Commands.RectangleRejected | AES352/CommandParser.cs:214-215 | `rectangle w h` fails the syntax check |
| Aes352Commands.RectangleDraws | AES352/CommandParser.cs:129-130 | `rectangle w h` draws a w by h rectangle at the cursor |
| Aes352Commands.ArgShowInt | AES352/CommandParser.cs:174 | an integer's spelling that names no variable resolves to that integer |
| Aes352Commands.RectangleCase | AES352/CommandParser.cs:129-130 | the `rectangle` case draws with its first two arguments |
| Aes352Semantics.DrawLine | AES352/CommandParser.cs:46-72 | the drawing cases only append to the trace |
| Aes352Semantics.DrawWithArguments | AES352/CommandParser.cs:46-63 | a numeric drawing case whose arguments all parse does exactly its drawing operation on them, ignoring extra tokens |
| Aes352Semantics.DrawOtherCommands | AES352/CommandParser.cs:52-72 | `clear` and `reset` always succeed; `color` sets the pen to the named colour and `fill` toggles the fill, each throwing when its argument is missing |
| Aes352Semantics.DrawLineAgreesWithExecuteCommand | AES352/CommandParser.cs:46-72 | when no argument names a variable, the drawing cases and `ExecuteCommand` on the same tokens succeed together and draw the same thing |
| Aes352Semantics.SetLine | AES352/CommandParser.cs:73-75 | `set` succeeds exactly when there are two arguments and the value resolves, and then binds the name |
| Aes352Semantics.UseLine | AES352/CommandParser.cs:76-78 | `usevar` succeeds exactly on a defined variable |
| Aes352Semantics.LoopLine | AES352/CommandParser.cs:79-90 | `loop` keeps the variables and, when it succeeds, leaves the index at the end the finder locates |
| Aes352Semantics.IfLine | AES352/CommandParser.cs:92-103 | `if` keeps the variables and, when it succeeds, leaves the index at the end the finder locates |
| Aes352Semantics.CaseOfShape | AES352/CommandParser.cs:44-105 | which keywords reach which case; every other keyword reaches `default` |
| Aes352Semantics.ExecuteLine | AES352/CommandParser.cs:44-106 | one pass of the body only appends to the trace, and on success leaves the index within the lines, no earlier than it was |
| Aes352Semantics.Run | AES352/CommandParser.cs:40-107 | the `for` loop only appends to the trace |
| Aes352Properties.Times | AES352/CommandParser.cs:80-82 | a `loop n` line replays its block no times when n is below one, and otherwise the whole part of n: at least once, at most n times and more than n − 1 times |
| Aes352Properties.KeywordOpens | AES352/CommandParser.cs:79 | a line that takes the `loop` or `if` case counts as an opener for the finders |
| Aes352Properties.LoopRunsBody | AES352/CommandParser.cs:79-90 | `loop n` runs the lines strictly between it and its end (int)n times in order, keeps the variables, and leaves the index at the end |
| Aes352Properties.LoopCase | AES352/CommandParser.cs:79 | a line whose key is `loop` takes the `loop` case |
| Aes352Properties.LoopLineRepeats | AES352/CommandParser.cs:80-89 | the `loop` case equals running (int)n copies of the block, or nothing when (int)n ≤ 0 |
| Aes352Properties.EndFollowsOpener | AES352/CommandParser.cs:81 | the end the finder locates lies past the opener |
| Aes352Properties.TopLevelLoopFails | AES352/CommandParser.cs:79-90 | a loop with no spare `endloop` after its own makes the finder throw, so the program stops there |
| Aes352Properties.FoundLoopFails | AES352/CommandParser.cs:79-90 | every `loop` whose end is found and whose count casts to one or more throws, and the program stops there |
| Aes352Properties.CloserBlockFails | AES352/CommandParser.cs:84-87 | running a block that holds a loop closer throws |
| Aes352Properties.CloserRejected | AES352/CommandParser.cs:115-148 | `ExecuteCommand` throws "unknown command" on every line the finders count as a loop closer |
| Aes352Properties.IfRunsBlockOnce | AES352/CommandParser.cs:92-103 | a true condition runs the lines up to the end once, a false one runs none, and both leave the index at the end |
| Aes352Properties.IfAlwaysFails | AES352/CommandParser.cs:93 | every `if` line throws, because `parts[1]` is a single token and EvaluateCondition needs three |
| Aes352Properties.UnknownKeywordStops | AES352/CommandParser.cs:104-105 | any other keyword, `endloop` and `endif` included, throws and ends the program with nothing changed |
| Aes352Properties.OnlySetAssigns | AES352/CommandParser.cs:73-75 | only `set` changes the variables, and it binds exactly the named one |
| Aes352Parser.CommandParser.constructor | AES352/CommandParser.cs:22-35 | the parser starts with no variables, a black pen and the cursor at the origin |
| Aes352Parser.CommandParser.MoveTo | AES352/CommandParser.cs:237-240 | the fields change exactly as `Canvas.MoveTo` |
| Aes352Parser.CommandParser.DrawTo | AES352/CommandParser.cs:242-247 | the fields change exactly as `Canvas.DrawTo` |
| Aes352Parser.CommandParser.Clear | AES352/CommandParser.cs:249-253 | the fields change exactly as `Canvas.Clear` |
| Aes352Parser.CommandParser.DrawRectangle | AES352/CommandParser.cs:255-261 | the fields change exactly as `Canvas.DrawRectangle` |
| Aes352Parser.CommandParser.DrawCircle | AES352/CommandParser.cs:263-269 | the fields change exactly as `Canvas.DrawCircle` |
| Aes352Parser.CommandParser.DrawTriangle | AES352/CommandParser.cs:271-278 | the fields change exactly as `Canvas.DrawTriangle` |
| Aes352Parser.CommandParser.SetColor | AES352/CommandParser.cs:280-283 | the pen becomes the named colour |
| Aes352Parser.CommandParser.ResetPenPosition | AES352/CommandParser.cs:285-288 | the fields change exactly as `Canvas.ResetPenPosition` |
| Aes352Parser.CommandParser.ToggleFill | AES352/CommandParser.cs:290-293 | the fields change exactly as `Canvas.ToggleFill` |
| Aes352Parser.CommandParser.SetVariable | AES352/CommandParser.cs:153-156 | the variables change as `Aes352Commands.SetVariable` says and the drawing stays |
| Aes352Parser.CommandParser.UseVariable | AES352/CommandParser.cs:158-165 | succeeds exactly on a defined name, with its value; otherwise "not found" |
| Aes352Parser.CommandParser.ParseFloat | AES352/CommandParser.cs:167-177 | computes `Aes352Commands.ParseFloat` on the current variables |
| Aes352Parser.CommandParser.ExecuteCommand | AES352/CommandParser.cs:115-151 | draws what `Aes352Commands.ExecuteCommand` gives, or throws its error with the drawing unchanged |
| Aes352Parser.CommandParser.RunBlock | AES352/CommandParser.cs:84-87 | the `for k` loop over lines from..to ends as `RunCommands` of that slice says |
| Aes352Parser.CommandParser.LoopLine | AES352/CommandParser.cs:79-90 | the `loop` case ends, and sets the index, as `Aes352Semantics.LoopLine` says |
| Aes352Parser.CommandParser.IfLine | AES352/CommandParser.cs:92-103 | the `if` case ends, and sets the index, as `Aes352Semantics.IfLine` says |
| Aes352Parser.CommandParser.DrawLine | AES352/CommandParser.cs:46-72 | the drawing cases end as `Aes352Semantics.DrawLine` says |
| Aes352Parser.CommandParser.ExecuteLine | AES352/CommandParser.cs:44-106 | one pass of the `for` body ends as `Aes352Semantics.ExecuteLine` says |
| Aes352Parser.CommandParser.ExecuteProgram | AES352/CommandParser.cs:37-111 | the whole run ends as `Aes352Semantics.Program` says |

## Left out

- The Windows Forms code, `Invalidate` and the `MessageBox` dialogs are UI only. The message boxes of `CheckSyntax` become its result.
- Concurrency and the `graphicsLock` lock are out of scope: the model is single-threaded.
- `SaveProgram` and `LoadProgram` are left out: they only copy file contents (file I/O).
- `SetupGraphics` and `Cleanup` are left out: they manage the bitmap.
- Rasterisation (fonts, brushes, pixels) is left out. Drawing calls become events in a trace.
- Colours are names. `Color.FromName` and the `KnownColor` enumeration are not modelled; the set of known colour names is a parameter.
- Numbers are mathematical reals, not 32-bit floats. Rounding, `NaN`, infinities, exponents, thousands separators and culture-specific formats of `float.TryParse` are not modelled.
- Numbers.Truncate: does not model the overflow of the `(int)` cast for values outside the 32-bit range.
- Canvas.DrawGridlines: records one grid event. The source paints the grid on an opaque white bitmap the size of the display and draws that bitmap over the image, so the grid covers everything drawn before it; the trace keeps the earlier events. The source's two rasterising loops never end when the spacing is zero, and the model does not capture that hang. A negative spacing makes the `int` counter run down until it wraps, which ends the loops; the model does not capture those lines either.
- `ExecuteSubroutine` and its `subroutines` dictionary are left out: the dictionary is never initialised, so every call throws a null reference.
- `UnitTest.cs` is left out. Several of its tests call members the class does not have, such as `GetLastDrawnRectangleSize` and `GetVariableValue`, or commands `ExecuteCommand` rejects (`var`, `color`). The position checks it makes on `moveto`, `clear`, `reset` and `fill` are the contracts of the `Canvas` functions.
- The `if` and `endif` cases inside part2's switch (lines 239-251) are left out. The checks before the switch catch those keywords first, so the cases are dead code. `SkipToEndIf` is therefore unreachable from `ExecuteProgram`, but it is still modelled as a method.
- The code is given as a sequence of lines. Splitting the text-box content on `Environment.NewLine` is not modelled, and the unused `program` argument of `ExecuteProgram` is dropped.
- The `Console.WriteLine` messages of `bgcolor` and `drawgrid` are left out. Only the fact that nothing else happens is modelled.
- `ToLower` is modelled for ASCII letters only.
- AES352 calls `FindEndLoopIndex`, `FindEndIfIndex` and `EvaluateCondition` without defining them. The model uses part2's definitions of the three, as the call sites pass their arguments.
- Exception messages are left out. Each error keeps only the condition that raised it and the offending token.
- Numbers.ParseInteger: a 32-bit overflow gives the same `None` as a malformed string, so `setcolor` reports it as a format error where `int.Parse` raises an `OverflowException`.
