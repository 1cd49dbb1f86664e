/**
 * The .NET string operations the interpreter relies on, as functions on
 * `seq<char>`: Trim, ToLower, Split (with and without RemoveEmptyEntries),
 * string.Join, Contains, StartsWith, EndsWith, TrimEnd(chars) and Replace.
 */
module Text {

  /** char.IsWhiteSpace: U+0009..U+000D, U+0085 and the Unicode space separators. */
  predicate IsWhiteSpace(c: char) {
    var n := c as int;
    || 9 <= n <= 13
    || n == 0x20 || n == 0x85 || n == 0xA0 || n == 0x1680
    || 0x2000 <= n <= 0x200A
    || n == 0x2028 || n == 0x2029 || n == 0x202F || n == 0x205F || n == 0x3000
  }

  /** string.IsNullOrWhiteSpace (a null string is not representable here). */
  predicate IsBlank(s: string) {
    forall i :: 0 <= i < |s| ==> IsWhiteSpace(s[i])
  }

  /** String.TrimStart(). */
  function TrimStart(s: string): string {
    if |s| > 0 && IsWhiteSpace(s[0]) then TrimStart(s[1..]) else s
  }

  /** String.TrimEnd(). */
  function TrimEnd(s: string): string {
    if |s| > 0 && IsWhiteSpace(s[|s| - 1]) then TrimEnd(s[..|s| - 1]) else s
  }

  /** String.Trim(). */
  function Trim(s: string): string {
    TrimEnd(TrimStart(s))
  }

  /** String.TrimEnd(params char[]): drops the trailing characters that belong to `cs`. */
  function TrimEndAny(s: string, cs: set<char>): string {
    if |s| > 0 && s[|s| - 1] in cs then TrimEndAny(s[..|s| - 1], cs) else s
  }

  /** char.ToLower, restricted to ASCII letters (culture-specific mappings are not modelled). */
  function LowerChar(c: char): char {
    if 'A' <= c <= 'Z' then (c as int + 32) as char else c
  }

  /** String.ToLower(). */
  function Lower(s: string): string {
    if s == [] then [] else [LowerChar(s[0])] + Lower(s[1..])
  }

  /** No character of `s` is one of `seps`. */
  predicate Avoids(s: string, seps: set<char>) {
    forall i :: 0 <= i < |s| ==> s[i] !in seps
  }

  /**
   * String.Split(char[]) without options: cuts at every separator and keeps
   * the empty pieces, so a string with n separators gives n + 1 pieces.
   */
  function SplitAny(s: string, seps: set<char>): (r: seq<string>)
    ensures |r| >= 1
  {
    if s == [] then [""]
    else
      var rest := SplitAny(s[1..], seps);
      if s[0] in seps then [""] + rest else [[s[0]] + rest[0]] + rest[1..]
  }

  /** String.Split(char). */
  function Split(s: string, sep: char): (r: seq<string>)
    ensures |r| >= 1
  {
    SplitAny(s, {sep})
  }

  /** The tokens of a program line: the trimmed line split on single spaces. */
  function Tokens(line: string): (r: seq<string>)
    ensures |r| >= 1
  {
    Split(Trim(line), ' ')
  }

  /** The lower-cased first token of a program line: what ExecuteProgram switches on. */
  function Keyword(line: string): string {
    Lower(Tokens(line)[0])
  }

  /** The StringSplitOptions.RemoveEmptyEntries filter. */
  function RemoveEmpty(parts: seq<string>): (r: seq<string>)
    ensures |r| <= |parts|
  {
    if parts == [] then []
    else if parts[0] == "" then RemoveEmpty(parts[1..])
    else [parts[0]] + RemoveEmpty(parts[1..])
  }

  /** string.Join(sep, parts). */
  function Join(sep: string, parts: seq<string>): string {
    if parts == [] then ""
    else if |parts| == 1 then parts[0]
    else parts[0] + sep + Join(sep, parts[1..])
  }

  /** `sub` occurs in `s` starting at index i. */
  predicate OccursAt(s: string, sub: string, i: int) {
    0 <= i && i + |sub| <= |s| && s[i..i + |sub|] == sub
  }

  /** String.Contains(string), ordinal. */
  predicate Contains(s: string, sub: string) {
    exists i | 0 <= i <= |s| - |sub| :: OccursAt(s, sub, i)
  }

  /** String.StartsWith(string). */
  predicate StartsWith(s: string, prefix: string) {
    |prefix| <= |s| && s[..|prefix|] == prefix
  }

  /** String.EndsWith(string). */
  predicate EndsWith(s: string, suffix: string) {
    |suffix| <= |s| && s[|s| - |suffix|..] == suffix
  }

  /**
   * String.Replace(string, string): every occurrence of `key`, taken left to
   * right without overlap, becomes `value`. .NET throws for an empty key;
   * callers check that before calling.
   */
  function Replace(s: string, key: string, value: string): string
    requires key != ""
  {
    if |s| < |key| then s
    else if s[..|key|] == key then value + Replace(s[|key|..], key, value)
    else [s[0]] + Replace(s[1..], key, value)
  }

  // ---------------------------------------------------------------------
  // What trimming, lower-casing and splitting produce. These are lemmas
  // rather than postconditions so that the quantifiers they carry enter a
  // proof only where they are needed.

  /** TrimStart drops exactly the leading white space: a suffix, starting with non-white. */
  lemma {:induction false} TrimStartShape(s: string)
    ensures var r := TrimStart(s);
      && |r| <= |s| && r == s[|s| - |r|..]
      && (r == [] || !IsWhiteSpace(r[0]))
      && forall i :: 0 <= i < |s| - |r| ==> IsWhiteSpace(s[i])
  {
    if |s| > 0 && IsWhiteSpace(s[0]) {
      TrimStartShape(s[1..]);
    }
  }

  /** TrimEnd drops exactly the trailing white space: a prefix, ending with non-white. */
  lemma {:induction false} TrimEndShape(s: string)
    ensures var r := TrimEnd(s);
      && |r| <= |s| && r == s[..|r|]
      && (r == [] || !IsWhiteSpace(r[|r| - 1]))
      && forall i :: |r| <= i < |s| ==> IsWhiteSpace(s[i])
  {
    if |s| > 0 && IsWhiteSpace(s[|s| - 1]) {
      TrimEndShape(s[..|s| - 1]);
    }
  }

  /** Trim leaves a slice of its input with no white space at either end. */
  lemma TrimShape(s: string)
    ensures var r := Trim(s);
      && |r| <= |s|
      && OccursAt(s, r, |s| - |TrimStart(s)|)
      && (r == [] || (!IsWhiteSpace(r[0]) && !IsWhiteSpace(r[|r| - 1])))
  {
    var t := TrimStart(s);
    TrimStartShape(s);
    TrimEndShape(t);
  }

  /** TrimEnd(chars) drops exactly the trailing characters drawn from `cs`. */
  lemma {:induction false} TrimEndAnyShape(s: string, cs: set<char>)
    ensures var r := TrimEndAny(s, cs);
      && |r| <= |s| && r == s[..|r|]
      && (r == [] || r[|r| - 1] !in cs)
      && forall i :: |r| <= i < |s| ==> s[i] in cs
  {
    if |s| > 0 && s[|s| - 1] in cs {
      TrimEndAnyShape(s[..|s| - 1], cs);
    }
  }

  /** ToLower maps every character and keeps the length. */
  lemma {:induction false} LowerShape(s: string)
    ensures |Lower(s)| == |s|
    ensures forall i :: 0 <= i < |s| ==> Lower(s)[i] == LowerChar(s[i])
  {
    if s != [] {
      LowerShape(s[1..]);
    }
  }

  /** Lower-case ASCII letters only. */
  predicate IsWord(w: string) {
    forall i :: 0 <= i < |w| ==> 'a' <= w[i] <= 'z'
  }

  /** Lower-casing a word changes nothing. */
  lemma LowerWord(w: string)
    requires IsWord(w)
    ensures Lower(w) == w
  {
    LowerShape(w);
  }

  /** A line is its first piece followed by nothing or by a space. */
  lemma LineStartsWithToken(line: string)
    ensures var token := Split(line, ' ')[0];
      && |token| <= |line| && line[..|token|] == token
      && (|line| == |token| || line[|token|] == ' ')
  {
    var parts := Split(line, ' ');
    JoinSplit(line, ' ');
    if |parts| > 1 {
      assert line == parts[0] + " " + Join(" ", parts[1..]);
    }
  }

  /** No piece of a split contains a separator. */
  lemma {:induction false} SplitAnyPieces(s: string, seps: set<char>)
    ensures forall k :: 0 <= k < |SplitAny(s, seps)| ==> Avoids(SplitAny(s, seps)[k], seps)
  {
    if s != [] {
      SplitAnyPieces(s[1..], seps);
    }
  }

  /** RemoveEmptyEntries keeps exactly the non-empty pieces. */
  lemma {:induction false} RemoveEmptyShape(parts: seq<string>)
    ensures forall k :: 0 <= k < |RemoveEmpty(parts)| ==> RemoveEmpty(parts)[k] != "" && RemoveEmpty(parts)[k] in parts
    ensures forall k :: 0 <= k < |parts| && parts[k] != "" ==> parts[k] in RemoveEmpty(parts)
  {
    if parts != [] {
      RemoveEmptyShape(parts[1..]);
    }
  }

  // ---------------------------------------------------------------------
  // Split and Join are inverse to each other.

  /** Joining the pieces of a split with the separator gives the string back. */
  lemma {:induction false} JoinSplit(s: string, sep: char)
    ensures Join([sep], Split(s, sep)) == s
  {
    JoinSplitAny(s, sep);
  }

  lemma {:induction false} JoinSplitAny(s: string, sep: char)
    ensures Join([sep], SplitAny(s, {sep})) == s
  {
    if s != [] {
      var rest := SplitAny(s[1..], {sep});
      JoinSplitAny(s[1..], sep);
      if s[0] == sep {
        assert SplitAny(s, {sep}) == [""] + rest;
        assert ([""] + rest)[1..] == rest;
        assert s == [sep] + s[1..];
      } else {
        var r := [[s[0]] + rest[0]] + rest[1..];
        assert SplitAny(s, {sep}) == r;
        if |rest| == 1 {
          assert s == [s[0]] + s[1..];
        } else {
          assert r[1..] == rest[1..];
          assert Join([sep], rest) == rest[0] + [sep] + Join([sep], rest[1..]);
          assert s == [s[0]] + s[1..];
        }
      }
    }
  }

  /** A string with no separator is one piece. */
  lemma {:induction false} SplitWhole(s: string, seps: set<char>)
    requires Avoids(s, seps)
    ensures SplitAny(s, seps) == [s]
  {
    if s != [] {
      SplitWhole(s[1..], seps);
      assert s == [s[0]] + s[1..];
    }
  }

  /** Splitting stops at the first separator. */
  lemma {:induction false} SplitAt(a: string, c: char, b: string, seps: set<char>)
    requires Avoids(a, seps) && c in seps
    ensures SplitAny(a + [c] + b, seps) == [a] + SplitAny(b, seps)
  {
    if a == [] {
      assert a + [c] + b == [c] + b;
      assert ([c] + b)[1..] == b;
    } else {
      var s := a + [c] + b;
      assert s[1..] == a[1..] + [c] + b;
      SplitAt(a[1..], c, b, seps);
      assert [s[0]] + a[1..] == a;
    }
  }

  /** Splitting a join of separator-free pieces gives the pieces back. */
  lemma {:induction false} SplitJoin(parts: seq<string>, sep: char)
    requires |parts| >= 1
    requires forall k :: 0 <= k < |parts| ==> sep !in parts[k]
    ensures Split(Join([sep], parts), sep) == parts
  {
    assert Avoids(parts[0], {sep});
    if |parts| == 1 {
      SplitWhole(parts[0], {sep});
    } else {
      SplitJoin(parts[1..], sep);
      SplitAt(parts[0], sep, Join([sep], parts[1..]), {sep});
      assert Join([sep], parts) == parts[0] + [sep] + Join([sep], parts[1..]);
      assert parts == [parts[0]] + parts[1..];
    }
  }

  // ---------------------------------------------------------------------
  // Replace: every occurrence goes, and a one-character swap can be undone.

  /** With nothing to replace, Replace returns its input. */
  lemma {:induction false} ReplaceAbsent(s: string, key: string, value: string)
    requires key != "" && !Contains(s, key)
    ensures Replace(s, key, value) == s
  {
    if |s| >= |key| {
      assert !OccursAt(s, key, 0);
      assert !Contains(s[1..], key) by {
        forall i | 0 <= i <= |s[1..]| - |key|
          ensures !OccursAt(s[1..], key, i)
        {
          assert s[1..][i..i + |key|] == s[i + 1..i + 1 + |key|];
          assert !OccursAt(s, key, i + 1);
        }
      }
      ReplaceAbsent(s[1..], key, value);
      assert s == [s[0]] + s[1..];
    }
  }

  /** Replacing a character by text without it leaves no occurrence of the character. */
  lemma {:induction false} ReplaceRemovesChar(s: string, c: char, value: string)
    requires c !in value
    ensures c !in Replace(s, [c], value)
  {
    if |s| >= 1 {
      ReplaceRemovesChar(s[1..], c, value);
      if s[..1] == [c] {
        assert s[1..] == s[|[c]|..];
      }
    }
  }

  /** Swapping character a for a character b that does not occur, then back, is the identity. */
  lemma {:induction false} ReplaceCharRoundTrip(s: string, a: char, b: char)
    requires b !in s
    ensures Replace(Replace(s, [a], [b]), [b], [a]) == s
  {
    if |s| >= 1 {
      ReplaceCharRoundTrip(s[1..], a, b);
      var rest := Replace(s[1..], [a], [b]);
      if s[0] == a {
        assert s[..1] == [a];
        assert Replace(s, [a], [b]) == [b] + rest;
        assert ([b] + rest)[..1] == [b] && ([b] + rest)[1..] == rest;
      } else {
        assert s[..1] != [a];
        assert Replace(s, [a], [b]) == [s[0]] + rest;
        assert ([s[0]] + rest)[..1] == [s[0]] != [b] && ([s[0]] + rest)[1..] == rest;
      }
      assert s == [s[0]] + s[1..];
    }
  }
}
