/** Coordinate propagation: what `changeColUntilEOL` and `changeRowUntilEOF` do to a token list. */
module Positions {
  import opened Tokens

  /** `s` with `delta` added to the column of the tokens at indices `lo` .. `hi - 1`. */
  function ShiftCols(s: seq<Tok>, lo: nat, hi: nat, delta: int): (r: seq<Tok>)
    requires lo <= hi <= |s|
    ensures |r| == |s|
  {
    seq(|s|, i requires 0 <= i < |s| => if lo <= i < hi then s[i].(col := s[i].col + delta) else s[i])
  }

  /** `s` with `delta` added to the row of the tokens at indices `lo` .. `hi - 1`. */
  function ShiftRows(s: seq<Tok>, lo: nat, hi: nat, delta: int): (r: seq<Tok>)
    requires lo <= hi <= |s|
    ensures |r| == |s| && forall k :: 0 <= k < |s| ==> r[k].(row := s[k].row) == s[k]
  {
    seq(|s|, i requires 0 <= i < |s| => if lo <= i < hi then s[i].(row := s[i].row + delta) else s[i])
  }

  /**
   * Where the column shift from `start` stops, given that the tokens `start + 1` .. `j - 1`
   * are on the row of `start`: one past the first later token on another row, or the end.
   */
  function SpanEndFrom(s: seq<Tok>, start: nat, j: nat): (e: nat)
    requires start < j <= |s|
    ensures j <= e <= |s|
    ensures forall k :: j <= k < e - 1 ==> s[k].row == s[start].row
    ensures e < |s| ==> j < e && s[e - 1].row != s[start].row
    decreases |s| - j
  {
    if j == |s| then |s|
    else if s[j].row != s[start].row then j + 1
    else SpanEndFrom(s, start, j + 1)
  }

  /**
   * One past the last token whose column `changeColUntilEOL(start, _)` updates: the loop updates
   * a token before it tests the row, so the first token on a later row is updated too.
   */
  function LineSpanEnd(s: seq<Tok>, start: nat): (e: nat)
    requires start < |s|
    ensures start < e <= |s|
    ensures forall k :: start <= k < e - 1 ==> s[k].row == s[start].row
    ensures e < |s| ==> s[e - 1].row != s[start].row
  {
    SpanEndFrom(s, start, start + 1)
  }

  /** Every token strictly between `start` and `k` is on the row of `start`. */
  ghost predicate SameRowBetween(s: seq<Tok>, start: nat, k: nat)
    requires start < |s| && k <= |s|
  {
    forall m :: start < m < k ==> s[m].row == s[start].row
  }

  /**
   * The column shift from `start`, stated without the loop: token `k` moves by `delta` exactly
   * when it is `start` or follows it with only tokens of `start`'s row in between; nothing but
   * columns changes.
   */
  lemma ColShiftCharacterized(s: seq<Tok>, start: nat, delta: int, k: nat)
    requires start < |s| && k < |s|
    ensures |ShiftCols(s, start, LineSpanEnd(s, start), delta)| == |s|
    ensures SameButCol(ShiftCols(s, start, LineSpanEnd(s, start), delta)[k], s[k])
    ensures ShiftCols(s, start, LineSpanEnd(s, start), delta)[k].col ==
            if start <= k && SameRowBetween(s, start, k) then s[k].col + delta else s[k].col
  {
  }

  /** The row shift leaves everything but rows alone and moves every token from `lo` on. */
  lemma RowShiftKeepsRest(s: seq<Tok>, lo: nat, delta: int)
    requires lo <= |s|
    ensures |ShiftRows(s, lo, |s|, delta)| == |s|
    ensures ShiftRows(s, lo, |s|, delta)[..lo] == s[..lo]
    ensures forall k :: lo <= k < |s| ==>
      ShiftRows(s, lo, |s|, delta)[k] == s[k].(row := s[k].row + delta)
  {
  }

  /** `SameRowBetween` only looks at rows, so it carries over to a list with the same rows at an offset. */
  lemma SameRowBetweenShifted(u: seq<Tok>, s: seq<Tok>, a: nat, b: nat, k: nat)
    requires a < |u| && b < |s| && a <= k <= |u| && k - a + b <= |s|
    requires forall m :: a <= m < k ==> u[m].row == s[m - a + b].row
    ensures SameRowBetween(u, a, k) <==> SameRowBetween(s, b, k - a + b)
  {
    if SameRowBetween(u, a, k) {
      forall m | b < m < k - a + b ensures s[m].row == s[b].row {
        assert u[m - b + a].row == s[m].row;
      }
    }
    if SameRowBetween(s, b, k - a + b) {
      forall m | a < m < k ensures u[m].row == u[a].row {
        assert s[m - a + b].row == s[b].row;
      }
    }
  }
}
