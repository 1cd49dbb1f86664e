/**
 * The value resolver, the condition evaluators and the variable store of the
 * flag-driven interpreter (part2/CommandParser.cs). All of them only read the
 * variable dictionary, which is passed in as a map.
 */
module Evaluator {
  import opened Outcomes
  import opened Text
  import opened Numbers

  /** The `variables` dictionary. */
  type Store = map<string, real>

  /** The characters ParseFloat splits an expression on. */
  const ExpressionOperators: set<char> := {'*', '/', '+', '-'}

  /** GetOperandValue: a variable first, then a literal. */
  function GetOperandValue(vars: Store, operand: string): (r: Result<real>)
    ensures operand in vars ==> r == Ok(vars[operand])
    ensures operand !in vars ==> (r.Ok? <==> ParseNumber(operand).Some?)
    ensures r.Err? ==> r.error == InvalidOperand(operand)
  {
    if operand in vars then Ok(vars[operand])
    else match ParseNumber(operand)
      case Some(v) => Ok(v)
      case None => Err(InvalidOperand(operand))
  }

  /**
   * ParseFloat: on the trimmed input, a literal first, then a variable, then
   * a two-operand product. Only '*' is ever computed.
   */
  function ParseFloat(vars: Store, input: string): (r: Result<real>)
    ensures r == Err(EmptyInput) <==> Trim(input) == ""
    ensures r.Err? && Trim(input) != "" ==> r.error == Unparsable(Trim(input)) || r.error.InvalidOperand?
  {
    var t := Trim(input);
    if t == "" then Err(EmptyInput)
    else match ParseNumber(t)
      case Some(v) => Ok(v)
      case None =>
        if t in vars then Ok(vars[t]) else Arithmetic(vars, t)
  }

  /**
   * The last rule of ParseFloat: the trimmed text cut at the operators, empty
   * pieces dropped; two operands multiply when the text holds a '*'.
   */
  function Arithmetic(vars: Store, t: string): (r: Result<real>)
    ensures r.Err? ==> r.error == Unparsable(t) || r.error.InvalidOperand?
  {
    var pieces := RemoveEmpty(SplitAny(t, ExpressionOperators));
    if |pieces| == 2 then Combine(t, GetOperandValue(vars, Trim(pieces[0])), GetOperandValue(vars, Trim(pieces[1])))
    else Err(Unparsable(t))
  }

  /** The two operand lookups in order, the first failure winning, then the product. */
  function Combine(t: string, left: Result<real>, right: Result<real>): (r: Result<real>)
    ensures r.Err? ==> r.error == Unparsable(t) || r == left || r == right
  {
    match (left, right)
    case (Err(e), _) => Err(e)
    case (Ok(_), Err(e)) => Err(e)
    case (Ok(x), Ok(y)) => if '*' in t then Ok(x * y) else Err(Unparsable(t))
  }

  /** The six comparison operators. */
  const Comparisons: set<string> := {">", ">=", "<", "<=", "==", "!="}

  /** The comparison switch shared by both condition evaluators. */
  function Compare(op: string, left: real, right: real): (r: Result<bool>)
    ensures r.Ok? <==> op in Comparisons
    ensures r.Err? ==> r.error == InvalidOperator(op)
  {
    if op == ">" then Ok(left > right)
    else if op == ">=" then Ok(left >= right)
    else if op == "<" then Ok(left < right)
    else if op == "<=" then Ok(left <= right)
    else if op == "==" then Ok(left == right)
    else if op == "!=" then Ok(left != right)
    else Err(InvalidOperator(op))
  }

  /** The operator testing the opposite outcome. */
  function Negation(op: string): string {
    if op == ">" then "<=" else if op == "<=" then ">"
    else if op == "<" then ">=" else if op == ">=" then "<"
    else if op == "==" then "!=" else "=="
  }

  /** CheckIfCondition's test for a comparison: any of the six operator texts occurs. */
  predicate MentionsComparison(condition: string) {
    Contains(condition, ">") || Contains(condition, ">=") || Contains(condition, "<")
    || Contains(condition, "<=") || Contains(condition, "==") || Contains(condition, "!=")
  }

  /**
   * CheckIfCondition: a three-token comparison when an operator text occurs,
   * otherwise the truth (non-zero) of the named variable.
   */
  function CheckIfCondition(vars: Store, condition: string): (r: Result<bool>)
    ensures !MentionsComparison(condition) ==>
      && (r.Ok? <==> condition in vars)
      && (r.Ok? ==> r.value == (vars[condition] != 0.0))
      && (r.Err? ==> r.error == InvalidCondition(condition))
    ensures MentionsComparison(condition) && |Split(condition, ' ')| != 3 ==> r == Err(InvalidCondition(condition))
  {
    if MentionsComparison(condition) then
      var parts := Split(condition, ' ');
      if |parts| != 3 then Err(InvalidCondition(condition))
      else
        var left :- ParseFloat(vars, parts[0]);
        var right :- ParseFloat(vars, parts[2]);
        Compare(parts[1], left, right)
    else if condition in vars then Ok(vars[condition] != 0.0)
    else Err(InvalidCondition(condition))
  }

  /** EvaluateCondition: exactly three space-separated tokens, operator in the middle. */
  function EvaluateCondition(vars: Store, condition: string): (r: Result<bool>)
    ensures |Split(condition, ' ')| != 3 ==> r == Err(InvalidConditionFormat)
  {
    var parts := Split(condition, ' ');
    if |parts| == 3 then
      var left :- ParseFloat(vars, parts[0]);
      var right :- ParseFloat(vars, parts[2]);
      Compare(parts[1], left, right)
    else Err(InvalidConditionFormat)
  }

  /** UseVariable: the stored value, or an exception for an unknown name. */
  function UseVariable(vars: Store, name: string): (r: Result<real>)
    ensures r.Ok? <==> name in vars
    ensures r.Ok? ==> r.value == vars[name]
    ensures r.Err? ==> r.error == UndefinedVariable(name)
  {
    if name in vars then Ok(vars[name]) else Err(UndefinedVariable(name))
  }

  /**
   * SetVariable: rejects a blank expression, evaluates it, and stores the
   * value under `name`, leaving every other variable as it was.
   */
  function AssignVariable(vars: Store, name: string, expression: string): (r: Result<Store>)
    ensures IsBlank(expression) ==> r == Err(EmptyExpression(name))
    ensures r.Ok? <==> !IsBlank(expression) && ParseFloat(vars, expression).Ok?
    ensures r.Ok? ==> r.value.Keys == vars.Keys + {name}
    ensures r.Ok? ==> r.value[name] == ParseFloat(vars, expression).value
    ensures r.Ok? ==> forall k :: k in vars && k != name ==> r.value[k] == vars[k]
  {
    if IsBlank(expression) then Err(EmptyExpression(name))
    else
      var value :- ParseFloat(vars, expression);
      Ok(vars[name := value])
  }

  // ---------------------------------------------------------------------
  // ParseFloat: which rule decides, and what it computes.

  /** A numeric literal is its own value even when a variable has the same name. */
  lemma LiteralShadowsVariable(vars: Store, input: string, v: real)
    requires ParseNumber(Trim(input)) == Some(v)
    ensures ParseFloat(vars, input) == Ok(v)
  {
  }

  /** A name that is not a literal resolves to the variable's value. */
  lemma VariableResolves(vars: Store, input: string)
    requires Trim(input) != "" && ParseNumber(Trim(input)).None? && Trim(input) in vars
    ensures ParseFloat(vars, input) == Ok(vars[Trim(input)])
  {
  }

  /**
   * Two operands around a '*' give their product; `/`, `+` and `-` split the
   * text the same way but nothing is computed for them.
   */
  lemma ProductOfOperands(vars: Store, input: string, a: real, b: real)
    requires var t := Trim(input);
      && t != "" && ParseNumber(t).None? && t !in vars
      && var pieces := RemoveEmpty(SplitAny(t, ExpressionOperators));
      && |pieces| == 2
      && GetOperandValue(vars, Trim(pieces[0])) == Ok(a)
      && GetOperandValue(vars, Trim(pieces[1])) == Ok(b)
    ensures '*' in Trim(input) ==> ParseFloat(vars, input) == Ok(a * b)
    ensures '*' !in Trim(input) ==> ParseFloat(vars, input) == Err(Unparsable(Trim(input)))
  {
    var t := Trim(input);
    assert ParseFloat(vars, input) == Arithmetic(vars, t);
    ArithmeticProduct(vars, t, a, b);
  }

  /** The fallback rule on its own: two operands, multiplied only around a '*'. */
  lemma ArithmeticProduct(vars: Store, t: string, a: real, b: real)
    requires var pieces := RemoveEmpty(SplitAny(t, ExpressionOperators));
      && |pieces| == 2
      && GetOperandValue(vars, Trim(pieces[0])) == Ok(a)
      && GetOperandValue(vars, Trim(pieces[1])) == Ok(b)
    ensures '*' in t ==> Arithmetic(vars, t) == Ok(a * b)
    ensures '*' !in t ==> Arithmetic(vars, t) == Err(Unparsable(t))
  {
    assert Arithmetic(vars, t) == Combine(t, Ok(a), Ok(b)) by {
      var pieces := RemoveEmpty(SplitAny(t, ExpressionOperators));
      assert Arithmetic(vars, t)
        == Combine(t, GetOperandValue(vars, Trim(pieces[0])), GetOperandValue(vars, Trim(pieces[1])));
    }
    CombineProduct(t, a, b);
  }

  /** Two operand values multiply around a '*' and are unparsable otherwise. */
  lemma CombineProduct(t: string, a: real, b: real)
    ensures '*' in t ==> Combine(t, Ok(a), Ok(b)) == Ok(a * b)
    ensures '*' !in t ==> Combine(t, Ok(a), Ok(b)) == Err(Unparsable(t))
  {
    var c := Combine(t, Ok(a), Ok(b));
    assert '*' in t ==> c.Ok? && c.value == a * b;
  }

  /** Anything ParseFloat accepts is a literal, a variable, or a text containing '*'. */
  lemma {:induction false} OnlyProductComputed(vars: Store, input: string)
    requires ParseFloat(vars, input).Ok?
    ensures var t := Trim(input);
      ParseNumber(t).Some? || t in vars || '*' in t
  {
  }

  /**
   * The operand signs are lost: "2*-3" splits into "2" and "3" (the empty
   * piece between '*' and '-' is dropped), so it evaluates to 6.
   */
  lemma SignOfSecondOperandLost()
    ensures ParseFloat(map[], "2*-3") == Ok(6.0)
  {
    ProductIsNoLiteral();
    NegativeFactorPieces();
    TrimUnchanged("2*-3");
    TrimUnchanged("2");
    TrimUnchanged("3");
    ParseNumberShowInt(2);
    ParseNumberShowInt(3);
    assert ShowInt(2) == "2" && ShowInt(3) == "3";
  }

  /** "2*-3" is not a float literal. */
  lemma ProductIsNoLiteral()
    ensures ParseNumber("2*-3").None?
  {
    var t := "2*-3";
    assert Split(t, '.') == [t] by {
      SplitWhole(t, {'.'});
    }
    assert StripLeading(t) == t;
    assert StripTrailing(t) == t;
    assert !AllDigits(t) by { assert !IsDigit(t[1]); }
  }

  /** "2*-3" cut at the operators, empty pieces dropped, leaves "2" and "3". */
  lemma NegativeFactorPieces()
    ensures RemoveEmpty(SplitAny("2*-3", ExpressionOperators)) == ["2", "3"]
  {
    var t := "2*-3";
    assert SplitAny(t, ExpressionOperators) == ["2", "", "3"] by {
      assert t[1..] == "*-3" && t[1..][1..] == "-3" && t[1..][1..][1..] == "3";
      assert SplitAny("3", ExpressionOperators) == ["3"] by {
        assert "3"[1..] == "";
        assert SplitAny("", ExpressionOperators) == [""];
        assert ['3'] + "" == "3";
      }
      assert SplitAny("-3", ExpressionOperators) == ["", "3"];
      assert SplitAny("*-3", ExpressionOperators) == ["", "", "3"];
      var rest := SplitAny(t[1..], ExpressionOperators);
      assert t[0] == '2' && t[0] !in ExpressionOperators;
      assert [t[0]] + rest[0] == "2" && rest[1..] == ["", "3"];
    }
    assert RemoveEmpty(["2", "", "3"]) == ["2", "3"] by {
      assert ["2", "", "3"][1..] == ["", "3"];
      assert ["", "3"][1..] == ["3"];
    }
  }

  /** Trimming a string that starts and ends with non-white space changes nothing. */
  lemma TrimUnchanged(s: string)
    requires s != [] && !IsWhiteSpace(s[0]) && !IsWhiteSpace(s[|s| - 1])
    ensures Trim(s) == s
  {
  }

  /** An integer printed in decimal resolves to itself whatever the variables. */
  lemma ParseFloatShowInt(vars: Store, n: int)
    ensures ParseFloat(vars, ShowInt(n)) == Ok(n as real)
  {
    var s := ShowInt(n);
    var d := if n < 0 then ShowNat(-n) else ShowNat(n);
    assert AllDigits(d);
    assert s[0] == '-' || IsDigit(s[0]);
    assert IsDigit(s[|s| - 1]) by {
      if n < 0 {
        assert s[|s| - 1] == d[|d| - 1];
      }
    }
    TrimUnchanged(s);
    ParseNumberShowInt(n);
  }

  // ---------------------------------------------------------------------
  // Conditions.

  /** Each comparison and its negation decide opposite outcomes. */
  lemma NegationFlips(op: string, left: real, right: real)
    requires op in Comparisons
    ensures Negation(op) in Comparisons
    ensures Compare(Negation(op), left, right) == Ok(!Compare(op, left, right).value)
  {
  }

  /** Both evaluators agree on every three-token condition that mentions an operator. */
  lemma ConditionsAgree(vars: Store, condition: string)
    requires MentionsComparison(condition) && |Split(condition, ' ')| == 3
    ensures CheckIfCondition(vars, condition) == EvaluateCondition(vars, condition)
  {
  }

  /**
   * A condition written as operand, operator, operand (no spaces inside the
   * operands) compares the two resolved operands with that operator.
   */
  lemma {:induction false} CompareCondition(vars: Store, left: string, op: string, right: string)
    requires op in Comparisons && ' ' !in left && ' ' !in right
    ensures var condition := Join(" ", [left, op, right]);
      && var l := ParseFloat(vars, left);
      && var r := ParseFloat(vars, right);
      && CheckIfCondition(vars, condition)
         == (if l.Err? then Err(l.error) else if r.Err? then Err(r.error) else Compare(op, l.value, r.value))
  {
    ConditionShape(left, op, right);
  }

  /** Operand, operator, operand joined by spaces split back into the three and mention the operator. */
  lemma ConditionShape(left: string, op: string, right: string)
    requires op in Comparisons && ' ' !in left && ' ' !in right
    ensures var condition := Join(" ", [left, op, right]);
      && Split(condition, ' ') == [left, op, right]
      && MentionsComparison(condition)
  {
    var condition := Join(" ", [left, op, right]);
    assert ' ' !in op;
    SplitJoin([left, op, right], ' ');
    assert condition == left + " " + op + " " + right by {
      assert [left, op, right][1..] == [op, right];
      assert [op, right][1..] == [right];
      assert Join(" ", [op, right]) == op + " " + right;
      assert condition == left + " " + (op + " " + right);
    }
    assert MentionsComparison(condition) by {
      var i := |left| + 1;
      assert condition[i..i + |op|] == op;
      if op == ">" || op == ">=" {
        assert OccursAt(condition, ">", i);
      } else if op == "<" || op == "<=" {
        assert OccursAt(condition, "<", i);
      } else if op == "==" {
        assert OccursAt(condition, "==", i);
      } else {
        assert OccursAt(condition, "!=", i);
      }
    }
  }

  /** A condition with no space in it is never three tokens, so EvaluateCondition rejects it. */
  lemma SingleTokenConditionFails(vars: Store, condition: string)
    requires ' ' !in condition
    ensures EvaluateCondition(vars, condition) == Err(InvalidConditionFormat)
  {
    assert Avoids(condition, {' '});
    SplitWhole(condition, {' '});
  }

  // ---------------------------------------------------------------------
  // The variable store.

  /** A stored value reads back through UseVariable, and through ParseFloat for a plain name. */
  lemma SetThenRead(vars: Store, name: string, expression: string, w: Store)
    requires AssignVariable(vars, name, expression) == Ok(w)
    ensures UseVariable(w, name) == Ok(ParseFloat(vars, expression).value)
    ensures Trim(name) == name && name != "" && ParseNumber(name).None? ==>
      ParseFloat(w, name) == Ok(ParseFloat(vars, expression).value)
  {
  }

  /** Assigning never removes a variable, and overwrites only the one named. */
  lemma AssignKeepsOthers(vars: Store, name: string, expression: string, other: string)
    requires AssignVariable(vars, name, expression).Ok? && other != name
    ensures UseVariable(AssignVariable(vars, name, expression).value, other) == UseVariable(vars, other)
  {
  }
}
