/** Line re-indentation: what `indentLine` does to a token list. */
module IndentLines {
  import opened Tokens
  import opened Positions

  /** The list after re-indenting, and the index of the token `indentLine` returns. */
  datatype Indented = Indented(toks: seq<Tok>, first: nat)

  /** `indentLine` dereferences the successor of a leading whitespace token it resizes or removes. */
  predicate IndentLinePre(s: seq<Tok>, start: nat, level: int) {
    start < |s| &&
    (s[start].IsWhitespace() && !s[start].EndsLine() && |s[start].text| != level ==> start + 1 < |s|)
  }

  /** The cases in which `indentLine` leaves the list alone. */
  predicate KeepsLine(t: Tok, level: int) {
    if t.IsWhitespace() then t.EndsLine() || |t.text| == level else level <= 0
  }

  /** Whitespace at `start` set to `level` spaces, and the column shift from its successor. */
  function Resized(s: seq<Tok>, start: nat, level: nat): (r: seq<Tok>)
    requires start + 1 < |s|
    ensures |r| == |s| && |r[start].text| == level
  {
    var s1 := s[start := s[start].(text := Spaces(level))];
    ShiftCols(s1, start + 1, LineSpanEnd(s1, start + 1), level - |s[start].text|)
  }

  /** The list with the token at `start` unlinked; its successor, now at `start`, begins the line. */
  function Unlinked(s: seq<Tok>, start: nat): (u: seq<Tok>)
    requires start + 1 < |s|
    ensures |u| == |s| - 1
    ensures forall m :: 0 <= m < start ==> u[m] == s[m]
    ensures u[start] == s[start + 1].WithBeginsLine()
    ensures forall m :: start < m < |u| ==> u[m] == s[m + 1]
  {
    var s1 := s[..start] + s[start + 1..];
    s1[start := s1[start].WithBeginsLine()]
  }

  /** Whitespace at `start` unlinked; its successor begins the line and shifts left by its width. */
  function Removed(s: seq<Tok>, start: nat): (r: seq<Tok>)
    requires start + 1 < |s|
    ensures |r| == |s| - 1 && r[start].BeginsLine()
  {
    var u := Unlinked(s, start);
    ShiftCols(u, start, LineSpanEnd(u, start), -|s[start].text|)
  }

  /** The leading whitespace token with text `text` put in front of `t`, at `t`'s position. */
  function IndentBefore(t: Tok, text: string): (r: Tok)
    ensures r.IsWhitespace() && r.BeginsLine() && !r.EndsLine()
    ensures r.flags & !LineFlags == t.flags & !LineFlags
  {
    Tok(text, Whitespace, ((t.flags & !BeginsLineFlag) & !EndsLineFlag) | BeginsLineFlag, t.row, t.col)
  }

  /** `t` linked in before `start`, which stops beginning the line. */
  function LinkedBefore(s: seq<Tok>, start: nat, t: Tok): (u: seq<Tok>)
    requires start < |s|
    ensures |u| == |s| + 1
    ensures forall m :: 0 <= m < start ==> u[m] == s[m]
    ensures u[start] == t
    ensures u[start + 1] == s[start].WithoutBeginsLine()
    ensures forall m :: start < m < |s| ==> u[m + 1] == s[m]
  {
    seq(|s| + 1, i requires 0 <= i <= |s| =>
      if i < start then s[i]
      else if i == start then t
      else if i == start + 1 then s[start].WithoutBeginsLine()
      else s[i - 1])
  }

  /** `LinkedBefore` is the splice followed by clearing the begins-line bit of the old token. */
  lemma LinkedBeforeSplice(s: seq<Tok>, start: nat, t: Tok, v: seq<Tok>, w: seq<Tok>)
    requires start < |s|
    requires v == s[..start] + [t] + s[start..]
    requires w == v[start + 1 := v[start + 1].WithoutBeginsLine()]
    ensures w == LinkedBefore(s, start, t)
  {
  }

  /** A new leading whitespace token before `start`, which shifts right and stops beginning the line. */
  function Inserted(s: seq<Tok>, start: nat, level: nat): (r: seq<Tok>)
    requires start < |s|
    ensures |r| == |s| + 1 && r[start].IsWhitespace() && |r[start].text| == level
  {
    LinkedBefore(ShiftCols(s, start, LineSpanEnd(s, start), level), start, IndentBefore(s[start], Spaces(level)))
  }

  /** `indentLine(start, level)` on the list `s`. */
  function IndentLine(s: seq<Tok>, start: nat, level: int): (r: Indented)
    requires IndentLinePre(s, start, level)
    ensures |s| - 1 <= |r.toks| <= |s| + 1 && r.first < |r.toks|
  {
    var t := s[start];
    if t.IsWhitespace() then
      if t.EndsLine() || |t.text| == level then Indented(s, start)
      else if level > 0 then Indented(Resized(s, start, level), start)
      else Indented(Removed(s, start), start)
    else if level > 0 then Indented(Inserted(s, start, level), start + 1)
    else Indented(s, start)
  }

  /** The list is untouched exactly in the cases `KeepsLine` names; then `start` is returned. */
  lemma IndentLineUnchangedIff(s: seq<Tok>, start: nat, level: int)
    requires IndentLinePre(s, start, level)
    ensures IndentLine(s, start, level).toks == s <==> KeepsLine(s[start], level)
    ensures KeepsLine(s[start], level) ==> IndentLine(s, start, level).first == start
  {
  }

  lemma ResizedFacts(s: seq<Tok>, start: nat, level: nat)
    requires start + 1 < |s|
    ensures |Resized(s, start, level)| == |s|
    ensures Resized(s, start, level)[start] == s[start].(text := Spaces(level))
    ensures |Resized(s, start, level)[start].text| == level
    ensures forall k :: 0 <= k < |s| && k != start ==> SameButCol(Resized(s, start, level)[k], s[k])
    ensures forall k :: 0 <= k < |s| && k != start ==>
      Resized(s, start, level)[k].col ==
        if start < k && SameRowBetween(s, start + 1, k) then s[k].col + level - |s[start].text| else s[k].col
  {
  }

  lemma {:induction false} RemovedFacts(s: seq<Tok>, start: nat)
    requires start + 1 < |s|
    ensures |Removed(s, start)| == |s| - 1
    ensures Removed(s, start)[..start] == s[..start]
    ensures Removed(s, start)[start].flags == s[start + 1].flags | BeginsLineFlag
    ensures forall k :: start + 1 < k < |s| ==> SameButCol(Removed(s, start)[k - 1], s[k])
    ensures forall k :: start + 1 <= k < |s| ==>
      && Removed(s, start)[k - 1].text == s[k].text && Removed(s, start)[k - 1].cls == s[k].cls
      && Removed(s, start)[k - 1].row == s[k].row
      && Removed(s, start)[k - 1].col ==
           if SameRowBetween(s, start + 1, k) then s[k].col - |s[start].text| else s[k].col
  {
    var r := Removed(s, start);
    forall k | start + 1 <= k < |s|
      ensures r[k - 1].text == s[k].text && r[k - 1].cls == s[k].cls && r[k - 1].row == s[k].row
      ensures k > start + 1 ==> r[k - 1].flags == s[k].flags
      ensures r[k - 1].col == if SameRowBetween(s, start + 1, k) then s[k].col - |s[start].text| else s[k].col
    {
      RemovedAt(s, start, k);
    }
    RemovedAt(s, start, start + 1);
    forall k | 0 <= k < start ensures r[k] == s[k] {
      ColShiftCharacterized(Unlinked(s, start), start, -|s[start].text|, k);
    }
  }

  /** The token that was at `k` after `start`, one place further left after the removal. */
  lemma {:induction false} RemovedAt(s: seq<Tok>, start: nat, k: nat)
    requires start + 1 <= k < |s|
    ensures var r := Removed(s, start);
      && r[k - 1].text == s[k].text && r[k - 1].cls == s[k].cls && r[k - 1].row == s[k].row
      && r[k - 1].flags == (if k == start + 1 then s[k].flags | BeginsLineFlag else s[k].flags)
      && r[k - 1].col == if SameRowBetween(s, start + 1, k) then s[k].col - |s[start].text| else s[k].col
  {
    var u := Unlinked(s, start);
    ColShiftCharacterized(u, start, -|s[start].text|, k - 1);
    SameRowBetweenShifted(u, s, start, start + 1, k - 1);
  }

  lemma {:induction false} InsertedFacts(s: seq<Tok>, start: nat, level: nat)
    requires start < |s|
    ensures |Inserted(s, start, level)| == |s| + 1
    ensures Inserted(s, start, level)[..start] == s[..start]
    ensures Inserted(s, start, level)[start] == IndentBefore(s[start], Spaces(level))
    ensures Inserted(s, start, level)[start + 1].flags == s[start].flags & !BeginsLineFlag
    ensures forall k :: start < k < |s| ==> SameButCol(Inserted(s, start, level)[k + 1], s[k])
    ensures forall k :: start <= k < |s| ==>
      && Inserted(s, start, level)[k + 1].text == s[k].text
      && Inserted(s, start, level)[k + 1].cls == s[k].cls
      && Inserted(s, start, level)[k + 1].row == s[k].row
      && Inserted(s, start, level)[k + 1].col ==
           if SameRowBetween(s, start, k) then s[k].col + level else s[k].col
  {
    var r := Inserted(s, start, level);
    forall k | start <= k < |s|
      ensures r[k + 1].text == s[k].text && r[k + 1].cls == s[k].cls && r[k + 1].row == s[k].row
      ensures k > start ==> r[k + 1].flags == s[k].flags
      ensures r[k + 1].col == if SameRowBetween(s, start, k) then s[k].col + level else s[k].col
    {
      InsertedAt(s, start, level, k);
    }
    forall k | 0 <= k < start ensures r[k] == s[k] {
      ColShiftCharacterized(s, start, level, k);
    }
  }

  /** The token that was at `k` from `start` on, one place further right after the insertion. */
  lemma {:induction false} InsertedAt(s: seq<Tok>, start: nat, level: nat, k: nat)
    requires start <= k < |s|
    ensures var r := Inserted(s, start, level);
      && r[k + 1].text == s[k].text && r[k + 1].cls == s[k].cls && r[k + 1].row == s[k].row
      && (k > start ==> r[k + 1].flags == s[k].flags)
      && r[k + 1].col == if SameRowBetween(s, start, k) then s[k].col + level else s[k].col
  {
    var s1 := ShiftCols(s, start, LineSpanEnd(s, start), level);
    ColShiftCharacterized(s, start, level, k);
    assert Inserted(s, start, level)[k + 1] == if k == start then s1[k].WithoutBeginsLine() else s1[k];
  }

  /**
   * Resize: a leading whitespace token without ends-line and of the wrong width, with a positive
   * level, becomes exactly `level` spaces; the tokens the column shift from its successor reaches
   * move by the change in width, nothing else changes, and `start` is returned.
   */
  lemma IndentLineResized(s: seq<Tok>, start: nat, level: int)
    requires IndentLinePre(s, start, level)
    requires s[start].IsWhitespace() && !s[start].EndsLine() && |s[start].text| != level && level > 0
    ensures var r := IndentLine(s, start, level);
      && r.first == start && |r.toks| == |s|
      && r.toks[start] == s[start].(text := Spaces(level))
      && |r.toks[start].text| == level
      && (forall k :: 0 <= k < |s| && k != start ==> SameButCol(r.toks[k], s[k]))
      && (forall k :: 0 <= k < |s| && k != start ==>
            r.toks[k].col == if start < k && SameRowBetween(s, start + 1, k)
                             then s[k].col + level - |s[start].text| else s[k].col)
  {
  }

  /**
   * Removal: a leading whitespace token without ends-line, of a width other than `level`, with
   * `level <= 0`, is spliced out; its successor takes its place, gains begins-line and keeps its
   * other bits; the tokens the column shift from the successor reaches move left by the removed
   * width, and the successor is returned.
   */
  lemma IndentLineRemoved(s: seq<Tok>, start: nat, level: int)
    requires IndentLinePre(s, start, level)
    requires s[start].IsWhitespace() && !s[start].EndsLine() && |s[start].text| != level && level <= 0
    ensures var r := IndentLine(s, start, level);
      && r.first == start && |r.toks| == |s| - 1
      && r.toks[..start] == s[..start]
      && r.toks[start].BeginsLine()
      && r.toks[start].flags == s[start + 1].flags | BeginsLineFlag
      && (forall k :: start + 1 < k < |s| ==> SameButCol(r.toks[k - 1], s[k]))
      && (forall k :: start + 1 <= k < |s| ==>
            && r.toks[k - 1].text == s[k].text && r.toks[k - 1].cls == s[k].cls
            && r.toks[k - 1].row == s[k].row
            && r.toks[k - 1].col == if SameRowBetween(s, start + 1, k)
                                    then s[k].col - |s[start].text| else s[k].col)
  {
    RemovedFacts(s, start);
  }

  /**
   * Insertion: before a token that is not whitespace, with a positive level, a whitespace token of
   * exactly `level` spaces is inserted at the old row and column of `start`, carrying begins-line,
   * not ends-line, and the other bits of `start`; `start` loses begins-line, it and the tokens the
   * column shift from it reaches move right by `level`, and `start` itself (not the new token) is
   * returned.
   */
  lemma IndentLineInserted(s: seq<Tok>, start: nat, level: int)
    requires IndentLinePre(s, start, level)
    requires !s[start].IsWhitespace() && level > 0
    ensures var r := IndentLine(s, start, level);
      && r.first == start + 1 && |r.toks| == |s| + 1
      && r.toks[..start] == s[..start]
      && r.toks[start].text == Spaces(level) && |r.toks[start].text| == level
      && r.toks[start].cls == Whitespace
      && r.toks[start].row == s[start].row && r.toks[start].col == s[start].col
      && r.toks[start].BeginsLine() && !r.toks[start].EndsLine()
      && r.toks[start].flags & !LineFlags == s[start].flags & !LineFlags
      && r.toks[start + 1].flags == s[start].flags & !BeginsLineFlag
      && !r.toks[start + 1].BeginsLine()
      && (forall k :: start < k < |s| ==> SameButCol(r.toks[k + 1], s[k]))
      && (forall k :: start <= k < |s| ==>
            && r.toks[k + 1].text == s[k].text && r.toks[k + 1].cls == s[k].cls
            && r.toks[k + 1].row == s[k].row
            && r.toks[k + 1].col == if SameRowBetween(s, start, k) then s[k].col + level else s[k].col)
  {
    InsertedFacts(s, start, level);
  }

  /** The tokens that are not whitespace, reduced to text, class and row, in order. */
  function Solid(s: seq<Tok>): seq<(string, string, int)>
  {
    if s == [] then []
    else (if s[0].IsWhitespace() then [] else [(s[0].text, s[0].cls, s[0].row)]) + Solid(s[1..])
  }

  lemma {:induction false} SolidAppend(a: seq<Tok>, b: seq<Tok>)
    ensures Solid(a + b) == Solid(a) + Solid(b)
  {
    if a != [] {
      assert (a + b)[1..] == a[1..] + b;
      SolidAppend(a[1..], b);
    } else {
      assert a + b == b;
    }
  }

  lemma SplitAt(a: seq<Tok>, k: nat)
    requires k <= |a|
    ensures a == a[..k] + a[k..]
  {
  }

  lemma SplitAround(a: seq<Tok>, k: nat)
    requires k < |a|
    ensures a == a[..k] + ([a[k]] + a[k + 1..])
  {
  }

  /** Same class and, unless whitespace, the same text and row. */
  predicate SameSolid(t: Tok, u: Tok) {
    t.cls == u.cls && (!t.IsWhitespace() ==> t.text == u.text && t.row == u.row)
  }

  lemma {:induction false} SolidPointwise(a: seq<Tok>, b: seq<Tok>)
    requires |a| == |b| && forall k :: 0 <= k < |a| ==> SameSolid(a[k], b[k])
    ensures Solid(a) == Solid(b)
  {
    if a != [] {
      SolidPointwise(a[1..], b[1..]);
    }
  }

  lemma {:induction false} RemovedKeepsSolid(s: seq<Tok>, start: nat)
    requires start + 1 < |s| && s[start].IsWhitespace()
    ensures Solid(Removed(s, start)) == Solid(s)
  {
    var r := Removed(s, start);
    RemovedFacts(s, start);
    forall m | start <= m < |r| ensures SameSolid(r[m], s[m + 1]) {
    }
    SolidOneWhitespaceMore(r, s, start);
  }

  lemma {:induction false} InsertedKeepsSolid(s: seq<Tok>, start: nat, level: nat)
    requires start < |s|
    ensures Solid(Inserted(s, start, level)) == Solid(s)
  {
    var r := Inserted(s, start, level);
    InsertedFacts(s, start, level);
    forall m | start <= m < |s| ensures SameSolid(r[m + 1], s[m]) {
    }
    SolidOneWhitespaceMore(s, r, start);
  }

  /** `b` is `a` with one whitespace token put in at `start`, up to layout: both have the same solid tokens. */
  lemma {:induction false} SolidOneWhitespaceMore(a: seq<Tok>, b: seq<Tok>, start: nat)
    requires start < |b| == |a| + 1 && a[..start] == b[..start] && b[start].IsWhitespace()
    requires forall m :: start <= m < |a| ==> SameSolid(b[m + 1], a[m])
    ensures Solid(b) == Solid(a)
  {
    var tail, btail, w := a[start..], b[start + 1..], b[start];
    forall m | 0 <= m < |tail| ensures SameSolid(btail[m], tail[m]) {
      assert btail[m] == b[start + 1 + m] && tail[m] == a[start + m];
    }
    SolidPointwise(btail, tail);
    SplitAt(a, start);
    SplitAround(b, start);
    assert Solid([w]) == [];
    SolidAppend(a[..start], tail);
    SolidAppend(b[..start], [w] + btail);
    SolidAppend([w], btail);
  }

  /**
   * `indentLine` only edits layout: the tokens that are not whitespace keep their text, class,
   * row and order (only columns and line bits change).
   */
  lemma IndentLineKeepsSolid(s: seq<Tok>, start: nat, level: int)
    requires IndentLinePre(s, start, level)
    ensures Solid(IndentLine(s, start, level).toks) == Solid(s)
  {
    var t := s[start];
    if KeepsLine(t, level) {
    } else if t.IsWhitespace() && level > 0 {
      ResizedFacts(s, start, level);
      SolidPointwise(Resized(s, start, level), s);
    } else if t.IsWhitespace() {
      RemovedKeepsSolid(s, start);
    } else {
      InsertedKeepsSolid(s, start, level);
    }
  }

  /**
   * With a positive level and whitespace at `start`, a second `indentLine` with the same level on
   * the returned token changes nothing: that whitespace already has exactly `level` spaces, or
   * ends its line.
   */
  lemma IndentLineResizeIdempotent(s: seq<Tok>, start: nat, level: int)
    requires IndentLinePre(s, start, level)
    requires s[start].IsWhitespace() && level > 0
    ensures var r := IndentLine(s, start, level);
      IndentLinePre(r.toks, r.first, level) && IndentLine(r.toks, r.first, level) == r
  {
    if !KeepsLine(s[start], level) {
      IndentLineResized(s, start, level);
    }
  }

  /**
   * With `level <= 0`, a second `indentLine` on the returned token changes nothing, provided
   * that, when a leading whitespace token is removed, its successor is not itself whitespace
   * that the second call would remove.
   */
  lemma IndentLineRemoveIdempotent(s: seq<Tok>, start: nat, level: int)
    requires IndentLinePre(s, start, level) && level <= 0
    requires !KeepsLine(s[start], level) ==>
      !(s[start + 1].IsWhitespace() && !s[start + 1].EndsLine() && |s[start + 1].text| != level)
    ensures var r := IndentLine(s, start, level);
      IndentLinePre(r.toks, r.first, level) && IndentLine(r.toks, r.first, level) == r
  {
    if !KeepsLine(s[start], level) {
      IndentLineRemoved(s, start, level);
      var r := IndentLine(s, start, level);
      assert r.toks[start].EndsLine() == s[start + 1].EndsLine();
    }
  }

  /**
   * With `level <= 0`, when a leading whitespace token is removed and its successor is again
   * whitespace of another width without ends-line, the returned token is that successor, and a
   * second `indentLine` on it removes it as well.
   */
  lemma IndentLineRemoveNotIdempotent(s: seq<Tok>, start: nat, level: int)
    requires start + 2 < |s| && level <= 0
    requires s[start].IsWhitespace() && !s[start].EndsLine() && |s[start].text| != level
    requires s[start + 1].IsWhitespace() && !s[start + 1].EndsLine() && |s[start + 1].text| != level
    ensures var r := IndentLine(s, start, level);
      && IndentLinePre(r.toks, r.first, level)
      && |IndentLine(r.toks, r.first, level).toks| == |s| - 2
  {
    IndentLineRemoved(s, start, level);
    var r := IndentLine(s, start, level);
    assert r.toks[start].EndsLine() == s[start + 1].EndsLine();
    IndentLineRemoved(r.toks, r.first, level);
  }

  /**
   * In the insertion case the token returned does not begin its line, so a second `indentLine`
   * with the same level on it inserts a second whitespace token.
   */
  lemma IndentLineInsertNotIdempotent(s: seq<Tok>, start: nat, level: int)
    requires start < |s| && !s[start].IsWhitespace() && level > 0
    ensures var r := IndentLine(s, start, level);
      && IndentLinePre(r.toks, r.first, level)
      && !r.toks[r.first].BeginsLine()
      && |IndentLine(r.toks, r.first, level).toks| == |s| + 2
  {
    IndentLineInserted(s, start, level);
    var r := IndentLine(s, start, level);
    IndentLineInserted(r.toks, r.first, level);
  }

  /**
   * `indentLine` returning, as its documentation says, the token at the beginning of the line
   * after indentation: in the insertion case that is the new whitespace token at `start`.
   */
  function IndentLineIntended(s: seq<Tok>, start: nat, level: int): Indented
    requires IndentLinePre(s, start, level)
  {
    var t := s[start];
    if t.IsWhitespace() then
      if t.EndsLine() || |t.text| == level then Indented(s, start)
      else if level > 0 then Indented(Resized(s, start, level), start)
      else Indented(Removed(s, start), start)
    else if level > 0 then Indented(Inserted(s, start, level), start)
    else Indented(s, start)
  }

  /**
   * The corrected `indentLine` edits the list exactly as the code does, and it is idempotent: a
   * second call on the token it returns changes nothing. With `level <= 0` this needs that a
   * removed whitespace token is not followed by more whitespace to remove. After an insertion or
   * a removal the returned token begins its line.
   */
  lemma IndentLineIntendedIdempotent(s: seq<Tok>, start: nat, level: int)
    requires IndentLinePre(s, start, level)
    requires level <= 0 && !KeepsLine(s[start], level) ==>
      !(s[start + 1].IsWhitespace() && !s[start + 1].EndsLine() && |s[start + 1].text| != level)
    ensures var r := IndentLineIntended(s, start, level);
      && r.toks == IndentLine(s, start, level).toks
      && ((!s[start].IsWhitespace() || level <= 0) && !KeepsLine(s[start], level) ==>
            r.toks[r.first].BeginsLine())
      && IndentLinePre(r.toks, r.first, level)
      && IndentLineIntended(r.toks, r.first, level) == r
  {
    if level <= 0 {
      IndentLineRemoveIdempotent(s, start, level);
      if !KeepsLine(s[start], level) {
        IndentLineRemoved(s, start, level);
      }
    } else if s[start].IsWhitespace() {
      IndentLineResizeIdempotent(s, start, level);
    } else {
      IndentLineInserted(s, start, level);
    }
  }
}
