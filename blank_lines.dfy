/** Blank-line enforcement: what `ensureBlankLineAfter` does to a token list. */
module BlankLines {
  import opened Tokens
  import opened Positions

  /** The first token at or after `i` that carries ends-line, if any. */
  function FindEndsLine(s: seq<Tok>, i: nat): (r: Option<nat>)
    requires i <= |s|
    ensures r.Some? ==> i <= r.value < |s| && s[r.value].EndsLine()
    ensures r.Some? ==> forall j :: i <= j < r.value ==> !s[j].EndsLine()
    ensures r.None? ==> forall j :: i <= j < |s| ==> !s[j].EndsLine()
    decreases |s| - i
  {
    if i == |s| then None
    else if s[i].EndsLine() then Some(i)
    else FindEndsLine(s, i + 1)
  }

  /** The line-break token put in front of `next`: at column 0 of its row, a line of its own. */
  function NewlineBefore(next: Tok): (r: Tok)
    ensures r.IsWhitespace() && r.BeginsLine() && r.EndsLine()
    ensures r.flags & !LineFlags == next.flags & !LineFlags
  {
    Tok("\n", Whitespace, ((next.flags & !BeginsLineFlag) & !EndsLineFlag) | BeginsLineFlag | EndsLineFlag, next.row, 0)
  }

  /** The index after which a blank line is inserted, when one is. */
  function BlankLineSite(s: seq<Tok>, token: Option<nat>): (r: Option<nat>)
    requires token.Some? ==> token.value < |s|
    ensures r.Some? ==> token.Some? && token.value <= r.value && r.value + 1 < |s|
    ensures r.Some? ==> s[r.value].EndsLine() && !s[r.value + 1].EndsLine()
    ensures r.Some? ==> forall j :: token.value <= j < r.value ==> !s[j].EndsLine()
    ensures && token.Some? && token.value + 1 < |s| && FindEndsLine(s, token.value).Some?
            && FindEndsLine(s, token.value).value + 1 < |s|
            && !s[FindEndsLine(s, token.value).value + 1].EndsLine()
            ==> r == FindEndsLine(s, token.value)
  {
    if token.None? || token.value + 1 >= |s| then None
    else match FindEndsLine(s, token.value)
      case None => None
      case Some(e) => if e + 1 >= |s| || s[e + 1].EndsLine() then None else Some(e)
  }

  /** A line break linked in after the token at `e`; the tokens after it move down one row. */
  function BreakAfter(s: seq<Tok>, e: nat): (r: seq<Tok>)
    requires e + 1 < |s|
    ensures |r| == |s| + 1 && r[..e + 1] == s[..e + 1]
  {
    s[..e + 1] + [NewlineBefore(s[e + 1])] + ShiftRows(s, e + 1, |s|, 1)[e + 1..]
  }

  /** The list after `ensureBlankLineAfter(token)`; `None` stands for a null token. */
  function BlankLineAfter(s: seq<Tok>, token: Option<nat>): (r: seq<Tok>)
    requires token.Some? ==> token.value < |s|
    ensures r == s || |r| == |s| + 1
  {
    match BlankLineSite(s, token)
    case None => s
    case Some(e) => BreakAfter(s, e)
  }

  /**
   * The list is left as it is exactly when the token is null or last, no token from it on ends
   * a line, the line-end token is last, or the next line is already empty.
   */
  lemma {:induction false} BlankLineUnchangedIff(s: seq<Tok>, token: Option<nat>)
    requires token.Some? ==> token.value < |s|
    ensures BlankLineAfter(s, token) == s <==>
      || token.None?
      || token.value + 1 >= |s|
      || FindEndsLine(s, token.value).None?
      || FindEndsLine(s, token.value).value + 1 >= |s|
      || s[FindEndsLine(s, token.value).value + 1].EndsLine()
  {
    var site := BlankLineSite(s, token);
    if site.Some? {
      assert |BlankLineAfter(s, token)| == |s| + 1;
    } else if token.Some? && token.value + 1 < |s| {
      var f := FindEndsLine(s, token.value);
      assert f.Some? ==> f.value + 1 >= |s| || s[f.value + 1].EndsLine();
    }
  }

  /**
   * Otherwise exactly one token is inserted, right after the line-end token `e`: a line break at
   * column 0 on the successor's old row, with the successor's other flag bits and both line bits;
   * the successor and everything after it move down one row, and nothing else changes.
   */
  lemma BlankLineInserted(s: seq<Tok>, token: Option<nat>, e: nat)
    requires token.Some? ==> token.value < |s|
    requires BlankLineSite(s, token) == Some(e)
    ensures var r := BlankLineAfter(s, token);
      && |r| == |s| + 1
      && r[..e + 1] == s[..e + 1]
      && r[e + 1].text == "\n" && r[e + 1].cls == Whitespace
      && r[e + 1].row == s[e + 1].row && r[e + 1].col == 0
      && r[e + 1].BeginsLine() && r[e + 1].EndsLine()
      && r[e + 1].flags & !LineFlags == s[e + 1].flags & !LineFlags
      && (forall k :: e + 1 <= k < |s| ==> r[k + 1] == s[k].(row := s[k].row + 1))
  {
  }

  /** Enforcing the blank line a second time changes nothing. */
  lemma BlankLineIdempotent(s: seq<Tok>, token: Option<nat>)
    requires token.Some? ==> token.value < |s|
    ensures token.Some? ==> token.value < |BlankLineAfter(s, token)|
    ensures BlankLineAfter(BlankLineAfter(s, token), token) == BlankLineAfter(s, token)
  {
  }

  /** The flag assignment on the line-end token masks with `n ^ ~n`, which keeps every bit. */
  lemma LineEndFlagsKept(f: bv32, n: bv32)
    ensures f & (n ^ !n) == f
  {
  }
}
