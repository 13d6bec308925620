/** Comment re-alignment: what `indentComments` does to a token list. */
module CommentAlignment {
  import opened Tokens
  import opened Positions
  import opened IndentLines

  /** The first token after `i` that is neither whitespace nor comment, if any. */
  function NextSubstantive(s: seq<Tok>, i: nat): (r: Option<nat>)
    requires i < |s|
    ensures r.Some? ==> i < r.value < |s| && s[r.value].IsSubstantive()
    ensures r.Some? ==> forall j :: i < j < r.value ==> !s[j].IsSubstantive()
    ensures r.None? ==> forall j :: i < j < |s| ==> !s[j].IsSubstantive()
    decreases |s| - i
  {
    if i + 1 == |s| then None
    else if s[i + 1].IsSubstantive() then Some(i + 1)
    else NextSubstantive(s, i + 1)
  }

  /**
   * The standalone test of `indentComments` re-reads the same predecessor forever when it is
   * whitespace without begins-line; the pass is only defined on lists where no comment from
   * `lo` on is in that position.
   */
  predicate StandaloneTestEnds(s: seq<Tok>, lo: nat) {
    forall j :: lo <= j < |s| && 0 < j && s[j].IsComment() && !s[j].BeginsLine() ==>
      !s[j - 1].IsWhitespace() || s[j - 1].BeginsLine()
  }

  /**
   * For a standalone comment at `i`, the token `indentLine` is applied to: the comment itself
   * when it begins its line or is first, its whitespace predecessor otherwise; `None` when the
   * predecessor is not whitespace (a trailing comment).
   */
  function LineStartOf(s: seq<Tok>, i: nat): (r: Option<nat>)
    requires i < |s|
    ensures r.Some? ==> r.value == i || (r.value + 1 == i && s[r.value].IsWhitespace())
  {
    if s[i].BeginsLine() || i == 0 then Some(i)
    else if !s[i - 1].IsWhitespace() then None
    else Some(i - 1)
  }

  /** The list after one turn of the loop of `indentComments`, and the index the loop visits next. */
  datatype Turn = Turn(toks: seq<Tok>, next: nat)

  /** The column a standalone comment at `i` is aligned to, unless it has no usable anchor. */
  function AnchorCol(s: seq<Tok>, i: nat): Option<int>
    requires i < |s|
  {
    match NextSubstantive(s, i)
    case None => None
    case Some(a) => if ClosesBlock(s[a]) then None else Some(s[a].col)
  }

  /**
   * One turn of the loop at the token `i`. The iterator has already moved to the successor of
   * `i` when the body runs, so the next index is one past wherever that token now is.
   */
  function CommentTurn(s: seq<Tok>, i: nat): (r: Turn)
    requires i < |s|
    ensures |s| - 1 <= |r.toks| <= |s| + 1
    ensures r.next == i + 1 + |r.toks| - |s|
  {
    if !s[i].IsComment() then Turn(s, i + 1)
    else match (LineStartOf(s, i), AnchorCol(s, i))
      case (Some(first), Some(c)) =>
        var r := IndentLine(s, first, c);
        IndentLineLength(s, first, c);
        Turn(r.toks, i + 1 + |r.toks| - |s|)
      case _ => Turn(s, i + 1)
  }

  /** `indentLine` adds or removes at most one token. */
  lemma IndentLineLength(s: seq<Tok>, start: nat, level: int)
    requires IndentLinePre(s, start, level)
    ensures |s| - 1 <= |IndentLine(s, start, level).toks| <= |s| + 1
  {
  }

  lemma {:induction false} PreAfterInsert(s: seq<Tok>, i: nat, c: nat)
    requires i < |s| && StandaloneTestEnds(s, i) && s[i].IsComment()
    ensures StandaloneTestEnds(Inserted(s, i, c), i + 2)
  {
    var u := Inserted(s, i, c);
    InsertedFacts(s, i, c);
    forall j | i + 2 <= j < |u| && u[j].IsComment() && !u[j].BeginsLine()
      ensures !u[j - 1].IsWhitespace() || u[j - 1].BeginsLine()
    {
      assert SameButCol(u[j], s[j - 1]);
      if j - 1 > i + 1 {
        assert SameButCol(u[j - 1], s[j - 2]);
      }
    }
  }

  lemma PreAfterResize(s: seq<Tok>, first: nat, c: nat)
    requires first + 1 < |s| && StandaloneTestEnds(s, first + 1)
    ensures StandaloneTestEnds(Resized(s, first, c), first + 2)
  {
  }

  lemma {:induction false} PreAfterRemove(s: seq<Tok>, first: nat)
    requires first + 1 < |s| && StandaloneTestEnds(s, first + 1) && s[first + 1].IsComment()
    ensures StandaloneTestEnds(Removed(s, first), first + 1)
  {
    var u := Removed(s, first);
    RemovedFacts(s, first);
    forall j | first + 1 <= j < |u| && u[j].IsComment() && !u[j].BeginsLine()
      ensures !u[j - 1].IsWhitespace() || u[j - 1].BeginsLine()
    {
      assert SameButCol(u[j], s[j + 1]);
      if j > first + 1 {
        assert SameButCol(u[j - 1], s[j]);
      }
    }
  }

  /** The token the loop visits next is past the comment just handled, which is a comment still. */
  lemma {:induction false} CommentTurnKeepsPre(s: seq<Tok>, i: nat)
    requires i < |s| && StandaloneTestEnds(s, i)
    ensures CommentTurn(s, i).next <= |CommentTurn(s, i).toks|
    ensures StandaloneTestEnds(CommentTurn(s, i).toks, CommentTurn(s, i).next)
  {
    var r := CommentTurn(s, i);
    if !s[i].IsComment() || LineStartOf(s, i).None? || AnchorCol(s, i).None? {
      assert r == Turn(s, i + 1);
      return;
    }
    var first := LineStartOf(s, i).value;
    var c := AnchorCol(s, i).value;
    var t := s[first];
    assert r.toks == IndentLine(s, first, c).toks;
    if KeepsLine(t, c) {
      assert r == Turn(s, i + 1);
    } else if first == i {
      assert r.toks == Inserted(s, i, c);
      InsertedFacts(s, i, c);
      PreAfterInsert(s, i, c);
    } else if c > 0 {
      assert r.toks == Resized(s, first, c);
      ResizedFacts(s, first, c);
      PreAfterResize(s, first, c);
    } else {
      assert r.toks == Removed(s, first);
      RemovedFacts(s, first);
      PreAfterRemove(s, first);
    }
  }

  /** `indentComments` on the list `s`, from the loop's position `i` on. */
  function IndentCommentsFrom(s: seq<Tok>, i: nat): seq<Tok>
    requires i <= |s| && StandaloneTestEnds(s, i)
    decreases |s| - i
  {
    if i == |s| then s
    else
      CommentTurnKeepsPre(s, i);
      var r := CommentTurn(s, i);
      IndentCommentsFrom(r.toks, r.next)
  }

  /**
   * The loop leaves the list alone at a token that is not a comment, at a trailing comment (one
   * that does not begin its line and follows a token that is not whitespace), and at a comment with
   * nothing substantive after it or with `end`/`until` next.
   */
  lemma CommentTurnSkips(s: seq<Tok>, i: nat)
    requires i < |s|
    requires || !s[i].IsComment()
             || (!s[i].BeginsLine() && 0 < i && !s[i - 1].IsWhitespace())
             || NextSubstantive(s, i).None?
             || ClosesBlock(s[NextSubstantive(s, i).value])
    ensures CommentTurn(s, i) == Turn(s, i + 1)
  {
  }

  /**
   * A comment whose line-start whitespace carries ends-line is left as it is: `indentLine` does
   * not touch whitespace that ends its line.
   */
  lemma CommentBehindLineEndSkipped(s: seq<Tok>, i: nat)
    requires i < |s| && s[i].IsComment()
    requires LineStartOf(s, i).Some? && LineStartOf(s, i).value < i && s[i - 1].EndsLine()
    ensures CommentTurn(s, i) == Turn(s, i + 1)
  {
  }

  /** The width of the leading whitespace of the line of token `k`, when it begins the line or follows that whitespace. */
  function LeadingWidth(s: seq<Tok>, k: nat): nat
    requires k < |s|
  {
    if s[k].BeginsLine() then 0
    else if 0 < k && s[k - 1].IsWhitespace() && s[k - 1].BeginsLine() then |s[k - 1].text|
    else 0
  }

  /**
   * A standalone comment with an anchor that does not close a block ends up indented to exactly
   * the anchor's column (or not at all when that column is not positive); it stays the token
   * just before the one the loop visits next.
   */
  lemma {:induction false} CommentAligned(s: seq<Tok>, i: nat)
    requires i < |s| && s[i].IsComment() && StandaloneTestEnds(s, i)
    requires LineStartOf(s, i).Some? && AnchorCol(s, i).Some?
    requires LineStartOf(s, i).value < i ==> !s[i - 1].EndsLine()
    ensures var r := CommentTurn(s, i);
      && 1 <= r.next <= |r.toks|
      && r.toks[r.next - 1].IsComment() && r.toks[r.next - 1].text == s[i].text
      && LeadingWidth(r.toks, r.next - 1) == if AnchorCol(s, i).value > 0 then AnchorCol(s, i).value else 0
  {
    var r := CommentTurn(s, i);
    var first := LineStartOf(s, i).value;
    var c := AnchorCol(s, i).value;
    var t := s[first];
    assert r.toks == IndentLine(s, first, c).toks;
    if first == i {
      if c > 0 {
        assert r.toks == Inserted(s, i, c);
        AlignedByInsert(s, i, c);
      } else {
        assert r == Turn(s, i + 1);
      }
    } else {
      assert first == i - 1 && t.IsWhitespace() && t.BeginsLine();
      if |t.text| == c {
        assert r == Turn(s, i + 1);
      } else if c > 0 {
        assert r.toks == Resized(s, first, c);
        AlignedByResize(s, first, c);
      } else {
        assert r.toks == Removed(s, first);
        AlignedByRemove(s, first);
      }
    }
  }

  lemma AlignedByInsert(s: seq<Tok>, i: nat, c: nat)
    requires i < |s| && c > 0
    ensures var u := Inserted(s, i, c);
      |u| == |s| + 1 && u[i + 1].cls == s[i].cls && u[i + 1].text == s[i].text && LeadingWidth(u, i + 1) == c
  {
  }

  lemma AlignedByResize(s: seq<Tok>, first: nat, c: nat)
    requires first + 1 < |s| && s[first].IsWhitespace() && s[first].BeginsLine() && !s[first + 1].BeginsLine()
    ensures var u := Resized(s, first, c);
      |u| == |s| && u[first + 1].cls == s[first + 1].cls && u[first + 1].text == s[first + 1].text
      && LeadingWidth(u, first + 1) == c
  {
  }

  lemma AlignedByRemove(s: seq<Tok>, first: nat)
    requires first + 1 < |s|
    ensures var u := Removed(s, first);
      |u| == |s| - 1 && u[first].cls == s[first + 1].cls && u[first].text == s[first + 1].text
      && LeadingWidth(u, first) == 0
  {
  }

  /** One turn of the loop keeps the non-whitespace tokens. */
  lemma {:induction false} CommentTurnKeepsSolid(s: seq<Tok>, i: nat)
    requires i < |s|
    ensures Solid(CommentTurn(s, i).toks) == Solid(s)
  {
    var r := CommentTurn(s, i);
    if !s[i].IsComment() || LineStartOf(s, i).None? || AnchorCol(s, i).None? {
      assert r.toks == s;
    } else {
      var first, c := LineStartOf(s, i).value, AnchorCol(s, i).value;
      assert r.toks == IndentLine(s, first, c).toks;
      IndentLineKeepsSolid(s, first, c);
    }
  }

  /**
   * The whole pass only edits layout: every token that is not whitespace keeps its text, class
   * and row, and their order is unchanged.
   */
  lemma {:induction false} IndentCommentsKeepsSolid(s: seq<Tok>, i: nat)
    requires i <= |s| && StandaloneTestEnds(s, i)
    ensures Solid(IndentCommentsFrom(s, i)) == Solid(s)
    decreases |s| - i
  {
    if i < |s| {
      CommentTurnKeepsPre(s, i);
      CommentTurnKeepsSolid(s, i);
      var r := CommentTurn(s, i);
      IndentCommentsKeepsSolid(r.toks, r.next);
    }
  }
}
