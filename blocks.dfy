/**
 * Block-terminator search: FindEndLoopIndex and FindEndIfIndex, which scan
 * the program lines counting openers against closers, and the line
 * classification SkipToEndIf uses.
 */
module Blocks {
  import opened Outcomes
  import opened Text

  /**
   * How a scan classifies lines. The finders test StartsWith on the trimmed,
   * lower-cased line; SkipToEndIf compares the whole lower-cased, trimmed line.
   */
  datatype Marker = Marker(opener: string, closer: string, wholeLine: bool)

  const LoopMarker: Marker := Marker("loop", "endloop", false)
  const IfMarker: Marker := Marker("if", "endif", false)
  const SkipMarker: Marker := Marker("if", "endif", true)

  /** +1 for an opener, -1 for a closer, 0 otherwise; the opener test comes first. */
  function Delta(m: Marker, line: string): (d: int)
    ensures -1 <= d <= 1
  {
    if m.wholeLine then WholeLineDelta(m, Trim(Lower(line))) else PrefixDelta(m, Lower(Trim(line)))
  }

  /** SkipToEndIf's test on the lower-cased, trimmed line. */
  function WholeLineDelta(m: Marker, t: string): int {
    if t == m.opener then 1 else if t == m.closer then -1 else 0
  }

  /** The finders' test on the trimmed, lower-cased line. */
  function PrefixDelta(m: Marker, t: string): int {
    if StartsWith(t, m.opener) then 1 else if StartsWith(t, m.closer) then -1 else 0
  }

  /** The counter change of every line, in order. */
  function Deltas(m: Marker, lines: seq<string>): (ds: seq<int>)
    ensures |ds| == |lines| && Unit(ds)
  {
    if lines == [] then [] else [Delta(m, lines[0])] + Deltas(m, lines[1..])
  }

  lemma {:induction false} DeltasAt(m: Marker, lines: seq<string>, i: nat)
    requires i < |lines|
    ensures Deltas(m, lines)[i] == Delta(m, lines[i])
  {
    if i > 0 {
      DeltasAt(m, lines[1..], i - 1);
    }
  }

  /** Every line moves the counter by at most one. */
  predicate Unit(ds: seq<int>) {
    forall i :: 0 <= i < |ds| ==> -1 <= ds[i] <= 1
  }

  /** Openers minus closers among the lines start..end-1. */
  function Depth(ds: seq<int>, start: nat, end: nat): int
    requires start <= end <= |ds|
    decreases end - start
  {
    if end == start then 0 else Depth(ds, start, end - 1) + ds[end - 1]
  }

  /** The counter never drops below zero over the lines start..end-1. */
  predicate NonNegative(ds: seq<int>, start: nat, end: nat)
    requires start <= end <= |ds|
    decreases end - start
  {
    end == start || (NonNegative(ds, start, end - 1) && Depth(ds, start, end) >= 0)
  }

  /**
   * Line j ends the block scanned from `start`: it is the first line at
   * which the closers from `start` on outnumber the openers.
   */
  predicate Closes(ds: seq<int>, start: nat, j: nat) {
    start <= j < |ds| && NonNegative(ds, start, j) && Depth(ds, start, j + 1) < 0
  }

  /** No line from `start` on ends a block. */
  predicate Unclosed(ds: seq<int>, start: nat) {
    start >= |ds| || NonNegative(ds, start, |ds|)
  }

  lemma {:induction false} NonNegativeAt(ds: seq<int>, start: nat, end: nat, e: nat)
    requires start <= end <= |ds| && NonNegative(ds, start, end)
    requires start < e <= end
    ensures Depth(ds, start, e) >= 0
    decreases end - e
  {
    if e < end {
      NonNegativeAt(ds, start, end - 1, e);
    }
  }

  function Scan(ds: seq<int>, start: nat, i: nat, count: int): (r: Option<nat>)
    requires start <= i <= |ds|
    requires count == Depth(ds, start, i)
    requires NonNegative(ds, start, i)
    ensures r.Some? ==> Closes(ds, start, r.value)
    ensures r.None? ==> Unclosed(ds, start)
    decreases |ds| - i
  {
    if i == |ds| then None
    else
      var c := count + ds[i];
      if c < 0 then Some(i) else Scan(ds, start, i + 1, c)
  }

  /** The index of the line that ends the block scanned from `start`, if there is one. */
  function MatchingEnd(m: Marker, lines: seq<string>, start: nat): (r: Option<nat>)
    ensures r.Some? ==> Closes(Deltas(m, lines), start, r.value)
    ensures r.None? ==> Unclosed(Deltas(m, lines), start)
  {
    if start >= |lines| then None else Scan(Deltas(m, lines), start, start, 0)
  }

  /**
   * FindEndLoopIndex / FindEndIfIndex: the first index where closers
   * outnumber openers, or an exception naming the start line.
   */
  method FindEndIndex(m: Marker, lines: seq<string>, start: nat) returns (r: Result<nat>)
    requires !m.wholeLine
    ensures r.Ok? ==> Closes(Deltas(m, lines), start, r.value)
    ensures r.Err? ==> r.error == NoMatchingEnd(start) && Unclosed(Deltas(m, lines), start)
  {
    ghost var ds := Deltas(m, lines);
    if start >= |lines| {
      // the counting loop does not run
      return Err(NoMatchingEnd(start));
    }
    var count := 0;
    var i := start;
    while i < |lines|
      invariant start <= i <= |lines|
      invariant count == Depth(ds, start, i)
      invariant NonNegative(ds, start, i)
      decreases |lines| - i
    {
      var trimmed := Lower(Trim(lines[i]));
      DepthStep(m, lines, start, i);
      if StartsWith(trimmed, m.opener) {
        assert PrefixDelta(m, trimmed) == 1;
        count := count + 1;
      } else if StartsWith(trimmed, m.closer) {
        assert PrefixDelta(m, trimmed) == -1;
        count := count - 1;
        if count < 0 {
          return Ok(i);
        }
      } else {
        assert PrefixDelta(m, trimmed) == 0;
      }
      i := i + 1;
    }
    return Err(NoMatchingEnd(start));
  }

  /** FindEndLoopIndex (part2/CommandParser.cs). */
  method FindEndLoopIndex(lines: seq<string>, start: nat) returns (r: Result<nat>)
    ensures r.Ok? ==> MatchingEnd(LoopMarker, lines, start) == Some(r.value)
    ensures r.Err? ==> r.error == NoMatchingEnd(start) && MatchingEnd(LoopMarker, lines, start) == None
  {
    r := FindEndIndex(LoopMarker, lines, start);
    if r.Ok? {
      MatchingEndComplete(LoopMarker, lines, start, r.value);
    } else {
      UnclosedHasNoEnd(LoopMarker, lines, start);
    }
  }

  /** FindEndIfIndex (part2/CommandParser.cs). */
  method FindEndIfIndex(lines: seq<string>, start: nat) returns (r: Result<nat>)
    ensures r.Ok? ==> MatchingEnd(IfMarker, lines, start) == Some(r.value)
    ensures r.Err? ==> r.error == NoMatchingEnd(start) && MatchingEnd(IfMarker, lines, start) == None
  {
    r := FindEndIndex(IfMarker, lines, start);
    if r.Ok? {
      MatchingEndComplete(IfMarker, lines, start, r.value);
    } else {
      UnclosedHasNoEnd(IfMarker, lines, start);
    }
  }

  // ---------------------------------------------------------------------
  // Properties of the search.

  /** The counter after line i is the counter before it plus the finders' test on that line. */
  lemma DepthStep(m: Marker, lines: seq<string>, start: nat, i: nat)
    requires !m.wholeLine && start <= i < |lines|
    ensures Depth(Deltas(m, lines), start, i + 1)
         == Depth(Deltas(m, lines), start, i) + PrefixDelta(m, Lower(Trim(lines[i])))
  {
    DeltasAt(m, lines, i);
  }

  /** A line that ends the block is the one MatchingEnd returns, so the result is unique. */
  lemma {:induction false} MatchingEndComplete(m: Marker, lines: seq<string>, start: nat, j: nat)
    requires Closes(Deltas(m, lines), start, j)
    ensures MatchingEnd(m, lines, start) == Some(j)
  {
    var ds := Deltas(m, lines);
    match MatchingEnd(m, lines, start)
    case None =>
      NonNegativeAt(ds, start, |ds|, j + 1);
    case Some(k) =>
      if k < j {
        NonNegativeAt(ds, start, j, k + 1);
      } else if j < k {
        NonNegativeAt(ds, start, k, j + 1);
      }
  }

  /** When no line from `start` on ends a block, MatchingEnd reports none. */
  lemma {:induction false} UnclosedHasNoEnd(m: Marker, lines: seq<string>, start: nat)
    requires Unclosed(Deltas(m, lines), start)
    ensures MatchingEnd(m, lines, start) == None
  {
    var ds := Deltas(m, lines);
    match MatchingEnd(m, lines, start)
    case None =>
    case Some(k) =>
      NonNegativeAt(ds, start, |ds|, k + 1);
  }

  /** Counting moves by at most one per line, so the counter is exactly -1 at the ending line. */
  lemma {:induction false} ClosesAtMinusOne(ds: seq<int>, start: nat, j: nat)
    requires Unit(ds) && Closes(ds, start, j)
    ensures Depth(ds, start, j + 1) == -1
  {
    if j > start {
      assert Depth(ds, start, j) >= 0;
    }
  }

  /** Counting from `start` is the first line's change plus counting from the next line. */
  lemma {:induction false} DepthFirst(ds: seq<int>, start: nat, end: nat)
    requires start < end <= |ds|
    ensures Depth(ds, start, end) == ds[start] + Depth(ds, start + 1, end)
    decreases end - start
  {
    if end > start + 1 {
      DepthFirst(ds, start, end - 1);
    }
  }

  /** Counts over consecutive ranges add up. */
  lemma {:induction false} DepthSplit(ds: seq<int>, a: nat, b: nat, c: nat)
    requires a <= b <= c <= |ds|
    ensures Depth(ds, a, c) == Depth(ds, a, b) + Depth(ds, b, c)
    decreases c - b
  {
    if c > b {
      DepthSplit(ds, a, b, c - 1);
    }
  }

  /**
   * A scan that starts ON an opener counts that opener, so it cannot stop at
   * the opener's own closer (the one a scan from the next line finds): if it
   * stops at all, it stops later, at a closer of an enclosing block.
   */
  lemma {:induction false} ScanFromOpenerOvershoots(ds: seq<int>, i: nat, own: nat, j: nat)
    requires Unit(ds) && i < |ds| && ds[i] == 1
    requires Closes(ds, i + 1, own)
    requires Closes(ds, i, j)
    ensures own < j
  {
    ClosesAtMinusOne(ds, i + 1, own);
    DepthFirst(ds, i, j + 1);
    if i < j < own {
      NonNegativeAt(ds, i + 1, own, j + 1);
    }
  }

  /**
   * Hence a scan started on the opener of an outermost block, the way the
   * block-jumping interpreter calls it, finds no end at all.
   */
  lemma {:induction false} ScanFromOuterOpenerFails(m: Marker, lines: seq<string>, i: nat, own: nat)
    requires i < |lines| && Delta(m, lines[i]) == 1
    requires MatchingEnd(m, lines, i + 1) == Some(own)
    requires MatchingEnd(m, lines, own + 1) == None
    ensures MatchingEnd(m, lines, i) == None
  {
    var ds := Deltas(m, lines);
    var r := MatchingEnd(m, lines, i);
    if r.Some? {
      DeltasAt(m, lines, i);
      NoCloseAfterOuterOpener(ds, i, own, r.value);
    }
  }

  lemma {:induction false} NoCloseAfterOuterOpener(ds: seq<int>, i: nat, own: nat, j: nat)
    requires Unit(ds) && i < |ds| && ds[i] == 1
    requires Closes(ds, i + 1, own)
    requires Unclosed(ds, own + 1)
    ensures !Closes(ds, i, j)
  {
    if Closes(ds, i, j) {
      ScanFromOpenerOvershoots(ds, i, own, j);
      ClosesAtMinusOne(ds, i + 1, own);
      DepthFirst(ds, i, j + 1);
      DepthSplit(ds, i + 1, own + 1, j + 1);
      NonNegativeAt(ds, own + 1, |ds|, j + 1);
    }
  }

  /** A range whose closers outnumber its openers contains a closer. */
  lemma {:induction false} NegativeDepthHasCloser(ds: seq<int>, a: nat, b: nat) returns (k: nat)
    requires a <= b <= |ds| && Depth(ds, a, b) < 0
    ensures a <= k < b && ds[k] < 0
    decreases b - a
  {
    if ds[b - 1] < 0 {
      k := b - 1;
    } else {
      k := NegativeDepthHasCloser(ds, a, b - 1);
    }
  }

  /**
   * The block a scan started on an opener finds holds that opener's own
   * closer: the counter is back at zero just before the ending line, so the
   * lines strictly between have one more closer than openers.
   */
  lemma OpenedBlockHasCloser(ds: seq<int>, i: nat, end: nat) returns (k: nat)
    requires Unit(ds) && i < |ds| && ds[i] == 1
    requires Closes(ds, i, end)
    ensures i < k < end && ds[k] == -1
  {
    ClosesAtMinusOne(ds, i, end);
    assert end != i;
    NonNegativeAt(ds, i, end, end);
    DepthFirst(ds, i, end);
    k := NegativeDepthHasCloser(ds, i + 1, end);
  }
}
