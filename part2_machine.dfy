/**
 * ExecuteProgram of the flag-driven interpreter (part2/CommandParser.cs) as a
 * step function over the interpreter's fields, one line at a time.
 *
 * The method registry stores references to List<string> objects, and
 * ExecuteProgram clears the list it has just registered, so the lists live in
 * an explicit heap: `lists` holds every list a run has created, in creation
 * order, `methods` maps a method name to the index of its list, and a run's
 * own capture list (`currentMethodBody`) is the index `body`.
 */
module Part2Semantics {
  import opened Outcomes
  import opened Text
  import opened Numbers
  import opened Canvas
  import opened Evaluator
  import opened Part2Commands

  /** The fields of one CommandParser object; they outlive a run of ExecuteProgram. */
  datatype Machine = Machine(
    vars: Store,
    surface: Surface,
    background: Option<string>,
    lists: seq<seq<string>>,
    methods: map<string, nat>,
    insideIf: bool,
    insideLoop: bool,
    loopBlock: seq<string>,
    insideMethod: bool,
    methodName: string)

  /** A newly constructed parser. */
  const Fresh: Machine := Machine(map[], Initial, None, [], map[], false, false, [], false, "")

  /** The machine together with the two locals of one run: the capture list and the skip flag. */
  datatype Config = Config(m: Machine, body: nat, skip: bool)

  /** The list a reference names; a dangling reference reads as empty. */
  function Deref(lists: seq<seq<string>>, ref: nat): (r: seq<string>)
    ensures ref < |lists| ==> r == lists[ref]
  {
    if ref < |lists| then lists[ref] else []
  }

  /** The heap with the list at `ref` replaced. */
  function Update(lists: seq<seq<string>>, ref: nat, list: seq<string>): (r: seq<seq<string>>)
    ensures |r| == |lists|
    ensures ref < |lists| ==> r[ref] == list
    ensures forall k :: 0 <= k < |lists| && k != ref ==> r[k] == lists[k]
  {
    if ref < |lists| then lists[ref := list] else lists
  }

  /** The list this run captures method lines into. */
  function Body(c: Config): seq<string> {
    Deref(c.m.lists, c.body)
  }

  /** IsMethodCall: the first token ends with "()". */
  predicate IsMethodCall(token: string) {
    EndsWith(token, "()")
  }

  /** The name CallMethod looks up: the token without its trailing '(' and ')' characters. */
  function MethodName(token: string): string {
    TrimEndAny(token, {'(', ')'})
  }

  /** DefineMethod: registers `ref` under a new name, and refuses a name already taken. */
  function DefineMethod(methods: map<string, nat>, name: string, ref: nat): (r: Result<map<string, nat>>)
    ensures r.Ok? <==> name !in methods
    ensures r.Err? ==> r.error == MethodAlreadyDefined(name)
    ensures r.Ok? ==> r.value.Keys == methods.Keys + {name} && r.value[name] == ref
    ensures r.Ok? ==> forall k :: k in methods ==> r.value[k] == methods[k]
  {
    if name in methods then Err(MethodAlreadyDefined(name)) else Ok(methods[name := ref])
  }

  /** CallMethod: each line of the registered list through ExecuteCommand. */
  function CallMethod(m: Machine, token: string): (r: Effect<Surface>)
    ensures MethodName(token) !in m.methods ==> r == Effect(m.surface, Fail(UndefinedMethod(MethodName(token))))
    ensures MethodName(token) in m.methods ==>
      r == RunCommands(m.vars, m.surface, Deref(m.lists, m.methods[MethodName(token)]))
  {
    var name := MethodName(token);
    if name in m.methods then RunCommands(m.vars, m.surface, Deref(m.lists, m.methods[name]))
    else Effect(m.surface, Fail(UndefinedMethod(name)))
  }

  /** Enum.TryParse<KnownColor> with ignoreCase: the known names, compared lower-cased. */
  function LowerNames(knownColors: set<string>): set<string> {
    set n | n in knownColors :: Lower(n)
  }

  // ---------------------------------------------------------------------
  // One line of ExecuteProgram, case group by case group.

  /** `if`: sets the flag, then decides the skip flag from the rest of the line. */
  function IfLine(c: Config, tokens: seq<string>): (e: Effect<Config>)
    requires |tokens| >= 1
    ensures e.state.m == c.m.(insideIf := true) && e.state.body == c.body
    ensures CheckIfCondition(c.m.vars, Join(" ", tokens[1..])).Ok? ==>
      e.outcome == Done && e.state.skip == !CheckIfCondition(c.m.vars, Join(" ", tokens[1..])).value
    ensures CheckIfCondition(c.m.vars, Join(" ", tokens[1..])).Err? ==>
      e.outcome == Fail(CheckIfCondition(c.m.vars, Join(" ", tokens[1..])).error)
  {
    var m := c.m.(insideIf := true);
    match CheckIfCondition(c.m.vars, Join(" ", tokens[1..]))
    case Ok(holds) => Effect(Config(m, c.body, !holds), Done)
    case Err(e) => Effect(c.(m := m), Fail(e))
  }

  /** `set` and `usevar`. */
  function VariableLine(vars: Store, tokens: seq<string>, keyword: string): (r: Result<Store>)
    requires keyword == "set" || keyword == "usevar"
    ensures r.Ok? ==> vars.Keys <= r.value.Keys
    ensures keyword == "usevar" && r.Ok? ==> r.value == vars
    ensures keyword == "set" && |tokens| < 3 ==> r == Err(SetFormat)
  {
    if keyword == "set" then
      if |tokens| < 3 then Err(SetFormat)
      else AssignVariable(vars, tokens[1], Join(" ", tokens[2..]))
    else if |tokens| < 2 then Err(IndexOutOfRange)
    else
      var _ :- UseVariable(vars, tokens[1]);
      Ok(vars)
  }

  /** `bgcolor` and `drawgrid`; either does nothing when its argument is missing. */
  function DisplayLine(knownColors: set<string>, m: Machine, tokens: seq<string>, keyword: string): (e: Effect<Machine>)
    requires keyword == "bgcolor" || keyword == "drawgrid"
    ensures e.state.vars == m.vars && e.state.lists == m.lists && e.state.methods == m.methods
    ensures e.state.loopBlock == m.loopBlock && e.state.insideIf == m.insideIf
    ensures e.state.insideLoop == m.insideLoop && e.state.insideMethod == m.insideMethod
    ensures |tokens| < 2 ==> e == Effect(m, Done)
    ensures keyword == "bgcolor" ==> e.state.surface == m.surface
  {
    if |tokens| < 2 then Effect(m, Done)
    else if keyword == "bgcolor" then
      if Lower(tokens[1]) in LowerNames(knownColors) then Effect(m.(background := Some(Lower(tokens[1]))), Done)
      else Effect(m, Fail(InvalidColorName(tokens[1])))
    else match ParseInteger(tokens[1])
      case Some(spacing) => Effect(m.(surface := DrawGridlines(m.surface, spacing)), Done)
      case None => Effect(m, Done)
  }

  /**
   * `loop`, `endloop`, `method` and `endmethod`; `body` is the run's capture
   * list, which the `method` check and `endmethod` use.
   */
  function BlockLine(m: Machine, body: nat, tokens: seq<string>, keyword: string): (e: Effect<Machine>)
    requires keyword in {"loop", "endloop", "method", "endmethod"}
    ensures e.state.vars == m.vars && e.state.insideIf == m.insideIf
    ensures |e.state.lists| == |m.lists|
  {
    if keyword == "loop" then
      if !m.insideLoop then Effect(m.(insideLoop := true, loopBlock := []), Done)
      else Effect(m, Fail(NestedLoop))
    else if keyword == "endloop" then
      if m.insideLoop then
        var replay := RunCommands(m.vars, m.surface, m.loopBlock);
        if replay.outcome.Done? then Effect(m.(surface := replay.state, insideLoop := false), Done)
        else Effect(m.(surface := replay.state), replay.outcome)
      else Effect(m, Fail(MismatchedEndloop))
    else if keyword == "method" then
      if Deref(m.lists, body) == [] then
        if |tokens| < 2 then Effect(m, Fail(IndexOutOfRange))
        else Effect(m.(insideMethod := true, methodName := tokens[1]), Done)
      else Effect(m, Fail(NestedMethod))
    else if m.insideMethod then
      match DefineMethod(m.methods, m.methodName, body)
      case Err(e) => Effect(m, Fail(e))
      case Ok(methods) =>
        Effect(m.(methods := methods, lists := Update(m.lists, body, []), insideMethod := false), Done)
    else Effect(m, Fail(MismatchedEndmethod))
  }

  /** The `default` case: capture into the method body, else into the loop body, else call or execute. */
  function DefaultLine(m: Machine, body: nat, line: string, tokens: seq<string>): (e: Effect<Machine>)
    requires |tokens| >= 1
    ensures e.state.vars == m.vars && e.state.methods == m.methods && e.state.insideIf == m.insideIf
    ensures |e.state.lists| == |m.lists|
  {
    if m.insideMethod then Effect(m.(lists := Update(m.lists, body, Deref(m.lists, body) + [line])), Done)
    else if m.insideLoop then Effect(m.(loopBlock := m.loopBlock + [line]), Done)
    else if IsMethodCall(tokens[0]) then
      var call := CallMethod(m, tokens[0]);
      Effect(m.(surface := call.state), call.outcome)
    else match ExecuteCommand(m.vars, m.surface, line)
      case Ok(s) => Effect(m.(surface := s), Done)
      case Err(e) => Effect(m, Fail(e))
  }

  /** A step on the object's fields, with the run's locals left as they were. */
  function Lift(c: Config, e: Effect<Machine>): (r: Effect<Config>)
    ensures r.state.body == c.body && r.state.skip == c.skip
  {
    Effect(c.(m := e.state), e.outcome)
  }

  /** The groups of ExecuteProgram's cases. */
  datatype Case = Opens | Closes | Draws | Variables | Display | Block | Default

  /** Which group of cases a keyword belongs to. */
  function CaseOf(keyword: string): Case {
    if keyword == "if" then Opens
    else if keyword == "endif" then Closes
    else if keyword in DrawKeywords then Draws
    else if keyword == "set" || keyword == "usevar" then Variables
    else if keyword == "bgcolor" || keyword == "drawgrid" then Display
    else if keyword in {"loop", "endloop", "method", "endmethod"} then Block
    else Default
  }

  /** Each group is exactly the keywords of its cases in the C# switch. */
  lemma CaseOfShape(keyword: string)
    ensures CaseOf(keyword) == Opens <==> keyword == "if"
    ensures CaseOf(keyword) == Closes <==> keyword == "endif"
    ensures CaseOf(keyword) == Draws <==> keyword in DrawKeywords
    ensures CaseOf(keyword) == Variables <==> keyword == "set" || keyword == "usevar"
    ensures CaseOf(keyword) == Display <==> keyword == "bgcolor" || keyword == "drawgrid"
    ensures CaseOf(keyword) == Block <==> keyword in {"loop", "endloop", "method", "endmethod"}
    ensures CaseOf(keyword) == Default <==> keyword !in SwitchKeywords
  {
  }

  /** One iteration of ExecuteProgram's foreach. */
  function ExecuteLine(knownColors: set<string>, c: Config, line: string): (e: Effect<Config>)
    ensures e.state.body == c.body
    ensures |e.state.m.lists| == |c.m.lists|
  {
    var tokens := Tokens(line);
    var keyword := Keyword(line);
    if keyword == "if" then IfLine(c, tokens)
    else if keyword == "endif" then Effect(c.(m := c.m.(insideIf := false), skip := false), Done)
    else if c.m.insideIf && c.skip then Effect(c, Done)
    else match CaseOf(keyword)
      case Draws =>
        CaseOfShape(keyword);
        (match DrawCommand(c.m.vars, c.m.surface, tokens, keyword)
         case Ok(s) => Effect(c.(m := c.m.(surface := s)), Done)
         case Err(e) => Effect(c, Fail(e)))
      case Variables =>
        CaseOfShape(keyword);
        (match VariableLine(c.m.vars, tokens, keyword)
         case Ok(vars) => Effect(c.(m := c.m.(vars := vars)), Done)
         case Err(e) => Effect(c, Fail(e)))
      case Display =>
        CaseOfShape(keyword);
        Lift(c, DisplayLine(knownColors, c.m, tokens, keyword))
      case Block => CaseOfShape(keyword); Lift(c, BlockLine(c.m, c.body, tokens, keyword))
      case Default => Lift(c, DefaultLine(c.m, c.body, line, tokens))
  }

  /** The lines from index i on, stopping at the first exception. */
  function RunLines(knownColors: set<string>, c: Config, lines: seq<string>, i: nat): (e: Effect<Config>)
    requires i <= |lines|
    ensures e.state.body == c.body
    ensures |e.state.m.lists| == |c.m.lists|
    decreases |lines| - i, 1
  {
    if i == |lines| then Effect(c, Done)
    else AfterStep(knownColors, ExecuteLine(knownColors, c, lines[i]), lines, i)
  }

  /** After line i has run: an exception ends the run, otherwise it goes on with line i + 1. */
  function AfterStep(knownColors: set<string>, step: Effect<Config>, lines: seq<string>, i: nat): (e: Effect<Config>)
    requires i < |lines|
    ensures e.state.body == step.state.body
    ensures |e.state.m.lists| == |step.state.m.lists|
    decreases |lines| - i, 0
  {
    if step.outcome.Fail? then step else RunLines(knownColors, step.state, lines, i + 1)
  }

  /** A run starts with a new, empty capture list and the skip flag off. */
  function Start(m: Machine): (c: Config)
    ensures c.body == |m.lists| && |c.m.lists| == |m.lists| + 1 && Body(c) == []
  {
    Config(m.(lists := m.lists + [[]]), |m.lists|, false)
  }

  /**
   * ExecuteProgram on the text box's lines: the empty lines dropped, then
   * every line in turn. The new state of the object, and whether an
   * exception ended the run.
   */
  function Program(knownColors: set<string>, m: Machine, code: seq<string>): (e: Effect<Machine>)
    ensures |e.state.lists| == |m.lists| + 1
  {
    var run := RunLines(knownColors, Start(m), RemoveEmpty(code), 0);
    Effect(run.state.m, run.outcome)
  }
}
