/**
 * ReplaceParameters (part2/CommandParser.cs): each `key=value` parameter, in
 * order, replaces every occurrence of its trimmed key in the command by its
 * trimmed value; parameters that do not split into exactly two pieces on
 * '=' are ignored.
 */
module Parameters {
  import opened Outcomes
  import opened Text

  /** The trimmed key and value of a well-formed parameter, or None when it is ignored. */
  function Binding(param: string): (r: Option<(string, string)>)
    ensures r.Some? <==> |Split(param, '=')| == 2
  {
    var parts := Split(param, '=');
    if |parts| == 2 then Some((Trim(parts[0]), Trim(parts[1]))) else None
  }

  /**
   * The parameters applied one after another. String.Replace throws for an
   * empty key, so a parameter whose key trims to nothing ends the substitution.
   */
  function Substitute(command: string, params: seq<string>): (r: Result<string>)
    ensures r.Err? ==> r.error == EmptyReplaceKey
    decreases |params|
  {
    if params == [] then Ok(command)
    else match Binding(params[0])
      case None => Substitute(command, params[1..])
      case Some((key, value)) =>
        if key == "" then Err(EmptyReplaceKey)
        else Substitute(Replace(command, key, value), params[1..])
  }

  /** The C# loop, reassigning `command` for each parameter in turn. */
  method ReplaceParameters(command: string, params: seq<string>) returns (r: Result<string>)
    ensures r == Substitute(command, params)
  {
    var current := command;
    var i := 0;
    while i < |params|
      invariant 0 <= i <= |params|
      invariant Substitute(command, params) == Substitute(current, params[i..])
    {
      assert params[i..][1..] == params[i + 1..];
      var parts := Split(params[i], '=');
      if |parts| == 2 {
        var key := Trim(parts[0]);
        if key == "" {
          return Err(EmptyReplaceKey);
        }
        current := Replace(current, key, Trim(parts[1]));
      }
      i := i + 1;
    }
    return Ok(current);
  }

  // ---------------------------------------------------------------------

  /** Substituting a concatenation of parameter lists is substituting one list, then the other. */
  lemma {:induction false} SubstituteAppend(command: string, first: seq<string>, second: seq<string>)
    ensures Substitute(command, first).Ok? ==>
      Substitute(command, first + second) == Substitute(Substitute(command, first).value, second)
    ensures Substitute(command, first).Err? ==> Substitute(command, first + second) == Substitute(command, first)
    decreases |first|
  {
    if first == [] {
      assert first + second == second;
    } else {
      assert (first + second)[1..] == first[1..] + second;
      assert (first + second)[0] == first[0];
      match Binding(first[0])
      case None =>
        SubstituteAppend(command, first[1..], second);
      case Some((key, value)) =>
        if key != "" {
          SubstituteAppend(Replace(command, key, value), first[1..], second);
        }
    }
  }

  /** Parameters without exactly one '=' leave the command as it is. */
  lemma {:induction false} SubstituteIgnoresMalformed(command: string, params: seq<string>)
    requires forall k :: 0 <= k < |params| ==> |Split(params[k], '=')| != 2
    ensures Substitute(command, params) == Ok(command)
    decreases |params|
  {
    if params != [] {
      SubstituteIgnoresMalformed(command, params[1..]);
    }
  }

  /** The one-character parameter text `a=b`. */
  function Assignment(a: char, b: char): string {
    [a, '=', b]
  }

  /** `a=b` binds the key a to the value b when neither is white space nor '='. */
  lemma BindingOfAssignment(a: char, b: char)
    requires a != '=' && b != '=' && !IsWhiteSpace(a) && !IsWhiteSpace(b)
    ensures Binding(Assignment(a, b)) == Some(([a], [b]))
  {
    assert Assignment(a, b) == [a] + ['='] + [b];
    assert Avoids([b], {'='});
    SplitWhole([b], {'='});
    SplitAt([a], '=', [b], {'='});
  }

  /** After `c=v`, where v does not contain c, no c is left in the command. */
  lemma SubstituteRemovesKey(command: string, c: char, v: char)
    requires c != '=' && v != '=' && !IsWhiteSpace(c) && !IsWhiteSpace(v) && c != v
    ensures Substitute(command, [Assignment(c, v)]).Ok?
    ensures c !in Substitute(command, [Assignment(c, v)]).value
  {
    BindingOfAssignment(c, v);
    ReplaceRemovesChar(command, c, [v]);
    assert [Assignment(c, v)][1..] == [];
  }

  /** Swapping a for a fresh b and back again (`a=b`, then `b=a`) restores the command. */
  lemma SubstituteSwapBack(command: string, a: char, b: char)
    requires a != '=' && b != '=' && !IsWhiteSpace(a) && !IsWhiteSpace(b)
    requires b !in command
    ensures Substitute(command, [Assignment(a, b), Assignment(b, a)]) == Ok(command)
  {
    BindingOfAssignment(a, b);
    BindingOfAssignment(b, a);
    var params := [Assignment(a, b), Assignment(b, a)];
    assert params[1..] == [Assignment(b, a)];
    assert params[1..][1..] == [];
    var swapped := Replace(command, [a], [b]);
    assert Substitute(command, params) == Substitute(swapped, [Assignment(b, a)]);
    assert Substitute(swapped, [Assignment(b, a)]) == Ok(Replace(swapped, [b], [a]));
    ReplaceCharRoundTrip(command, a, b);
  }

  /** A parameter whose key does not occur changes nothing. */
  lemma SubstituteAbsentKey(command: string, param: string)
    requires Binding(param).Some? && Binding(param).value.0 != ""
    requires !Contains(command, Binding(param).value.0)
    ensures Substitute(command, [param]) == Ok(command)
  {
    ReplaceAbsent(command, Binding(param).value.0, Binding(param).value.1);
    assert [param][1..] == [];
  }
}
