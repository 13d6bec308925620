/** The token list the engine edits in place, and the operations of `Indent` on it. */
module TokenLists {
  import opened Tokens
  import opened Positions
  import opened BlankLines
  import opened IndentLines
  import opened CommentAlignment

  /**
   * A doubly linked list of tokens, held as the sequence of its tokens from the head: the
   * predecessor and successor of the token at index `i` are those at `i - 1` and `i + 1`.
   */
  class TokenList {
    var toks: seq<Tok>

    constructor (toks: seq<Tok>)
      ensures this.toks == toks
    {
      this.toks := toks;
    }

    /** `skipWhitespaceAndComments`: the first token after `start` that is neither whitespace nor comment. */
    method SkipWhitespaceAndComments(start: nat) returns (r: Option<nat>)
      requires start + 1 < |toks|
      ensures r == NextSubstantive(toks, start)
      ensures r.Some? ==> start < r.value < |toks| && toks[r.value].IsSubstantive()
      ensures r.Some? ==> forall j :: start < j < r.value ==> !toks[j].IsSubstantive()
      ensures r.None? ==> forall j :: start < j < |toks| ==> !toks[j].IsSubstantive()
    {
      var i := start + 1;
      while i < |toks|
        invariant start < i <= |toks|
        invariant NextSubstantive(toks, start) == NextSubstantive(toks, i - 1)
      {
        if toks[i].IsSubstantive() {
          return Some(i);
        }
        i := i + 1;
      }
      return None;
    }

    /** `skipUntil`: the first token from `start` on (itself included) that matches class and text. */
    method SkipUntil(start: nat, cls: string, text: string) returns (r: Option<nat>)
      requires start < |toks|
      ensures r.Some? ==> start <= r.value < |toks| && Match(toks[r.value], cls, text)
      ensures r.Some? ==> forall j :: start <= j < r.value ==> !Match(toks[j], cls, text)
      ensures r.None? ==> forall j :: start <= j < |toks| ==> !Match(toks[j], cls, text)
    {
      var i := start;
      while i < |toks|
        invariant start <= i <= |toks|
        invariant forall j :: start <= j < i ==> !Match(toks[j], cls, text)
      {
        if toks[i].cls == cls && EqualsIgnoreCase(toks[i].text, text) {
          return Some(i);
        }
        i := i + 1;
      }
      return None;
    }

    /**
     * `changeColUntilEOL`: adds `delta` to the column of `start` and of the tokens after it up to
     * and including the first one on another row.
     */
    method ChangeColUntilEOL(start: nat, delta: int)
      requires start < |toks|
      modifies this
      ensures toks == ShiftCols(old(toks), start, LineSpanEnd(old(toks), start), delta)
    {
      ghost var s := toks;
      var i := start;
      while i < |toks|
        invariant start <= i <= |toks| == |s|
        invariant toks == ShiftCols(s, start, i, delta)
        invariant forall j :: start <= j < i ==> s[j].row == s[start].row
      {
        toks := toks[i := toks[i].(col := toks[i].col + delta)];
        if toks[i].row != toks[start].row {
          assert LineSpanEnd(s, start) == i + 1;
          return;
        }
        i := i + 1;
      }
      assert LineSpanEnd(s, start) == |s|;
    }

    /** `changeRowUntilEOF`: adds `delta` to the row of `start` and of every token after it. */
    method ChangeRowUntilEOF(delta: int, start: nat)
      requires start < |toks|
      modifies this
      ensures toks == ShiftRows(old(toks), start, |old(toks)|, delta)
    {
      ghost var s := toks;
      var i := start;
      while i < |toks|
        invariant start <= i <= |toks| == |s|
        invariant toks == ShiftRows(s, start, i, delta)
      {
        toks := toks[i := toks[i].(row := toks[i].row + delta)];
        i := i + 1;
      }
    }

    /** The loop of `ensureBlankLineAfter` that walks to the token ending the line. */
    method LineEnd(from: nat) returns (r: Option<nat>)
      requires from <= |toks|
      ensures r == FindEndsLine(toks, from)
    {
      var t := from;
      while t < |toks| && !toks[t].EndsLine()
        invariant from <= t <= |toks|
        invariant FindEndsLine(toks, from) == FindEndsLine(toks, t)
      {
        t := t + 1;
      }
      return if t < |toks| then Some(t) else None;
    }

    /**
     * `ensureBlankLineAfter`: when the line of `token` is followed by a line that is not empty,
     * a line-break token is linked in after the line's last token; `None` stands for null.
     */
    method EnsureBlankLineAfter(token: Option<nat>)
      requires token.Some? ==> token.value < |toks|
      modifies this
      ensures toks == BlankLineAfter(old(toks), token)
    {
      if token.None? || token.value + 1 >= |toks| {
        return;
      }
      var found := LineEnd(token.value);
      if found.None? || found.value + 1 >= |toks| {
        return;
      }
      BreakLineAfter(found.value);
    }

    /**
     * The second half of `ensureBlankLineAfter`, from the token `t` that ends the line: the flag
     * assignment that keeps every bit, and the line break linked in unless the next line is empty.
     */
    method BreakLineAfter(t: nat)
      requires t + 1 < |toks|
      modifies this
      ensures toks == if old(toks)[t + 1].EndsLine() then old(toks) else BreakAfter(old(toks), t)
    {
      ghost var s := toks;
      var nextFlag := toks[t + 1].flags;
      toks := toks[t := toks[t].(flags := toks[t].flags & (toks[t + 1].flags ^ !nextFlag))];
      assert toks == s by {
        LineEndFlagsKept(s[t].flags, nextFlag);
      }
      if toks[t + 1].EndsLine() {
        return;
      }
      var newToken := NewlineBefore(toks[t + 1]);
      ChangeRowUntilEOF(1, t + 1);
      assert toks[..t + 1] == s[..t + 1];
      toks := toks[..t + 1] + [newToken] + toks[t + 1..];
    }

    /** The loops of `indentLine` that build a text of `level` spaces one space at a time. */
    method SpaceText(level: int) returns (text: string)
      ensures |text| == (if level > 0 then level else 0)
      ensures forall k :: 0 <= k < |text| ==> text[k] == ' '
      ensures text == Spaces(|text|)
    {
      text := "";
      var i := 1;
      while i <= level
        invariant 1 <= i <= (if level > 0 then level + 1 else 1)
        invariant text == Spaces(i - 1)
      {
        text := text + " ";
        i := i + 1;
      }
    }

    /**
     * `indentLine(start, level)`: gives the line that begins at `start` a leading whitespace of
     * `level` columns, and returns the index of the token that now begins that line's text.
     */
    method IndentLine(start: nat, level: int) returns (first: nat)
      requires IndentLinePre(toks, start, level)
      modifies this
      ensures Indented(toks, first) == IndentLines.IndentLine(old(toks), start, level)
    {
      var t := toks[start];
      if t.cls == Whitespace {
        if !t.EndsLine() {
          if |t.text| == level {
          } else if level > 0 {
            ResizeIndent(start, level);
          } else {
            RemoveIndent(start);
            return start;
          }
        }
      } else if level > 0 {
        InsertIndent(start, level);
        return start + 1;
      }
      return start;
    }

    /** The resize branch of `indentLine`: new text of `level` spaces, the rest of the line shifted. */
    method ResizeIndent(start: nat, level: nat)
      requires start + 1 < |toks|
      modifies this
      ensures toks == Resized(old(toks), start, level)
    {
      var delta := level - |toks[start].text|;
      var text := SpaceText(level);
      toks := toks[start := toks[start].(text := text)];
      ChangeColUntilEOL(start + 1, delta);
    }

    /** The removal branch of `indentLine`: the whitespace unlinked, its successor moved left. */
    method RemoveIndent(start: nat)
      requires start + 1 < |toks|
      modifies this
      ensures toks == Removed(old(toks), start)
    {
      var delta := -1 * |toks[start].text|;
      toks := toks[..start] + toks[start + 1..];
      toks := toks[start := toks[start].WithBeginsLine()];
      ChangeColUntilEOL(start, delta);
    }

    /** The insertion branch of `indentLine`: a new whitespace token linked in before `start`. */
    method InsertIndent(start: nat, level: nat)
      requires start < |toks|
      modifies this
      ensures toks == Inserted(old(toks), start, level)
    {
      var t := toks[start];
      var text := SpaceText(level);
      var newToken := IndentBefore(t, text);
      ChangeColUntilEOL(start, level);
      LinkBefore(start, newToken);
    }

    /** The relinking at the end of `indentLine`'s insertion branch: `newToken` goes in before `start`. */
    method LinkBefore(start: nat, newToken: Tok)
      requires start < |toks|
      modifies this
      ensures toks == LinkedBefore(old(toks), start, newToken)
    {
      var spliced := toks[..start] + [newToken] + toks[start..];
      var relinked := spliced[start + 1 := spliced[start + 1].WithoutBeginsLine()];
      LinkedBeforeSplice(toks, start, newToken, spliced, relinked);
      toks := relinked;
    }

    /**
     * `indentComments`: every standalone comment (one that begins its line, possibly after
     * whitespace) is re-indented to the column of the next token that is neither whitespace nor
     * comment, unless there is none or it is `end` or `until`. The pass visits the tokens from
     * `tokens` to the end of the list; tokens before it are only read, as predecessors.
     */
    method IndentComments(tokens: nat)
      requires tokens < |toks| && StandaloneTestEnds(toks, tokens)
      modifies this
      ensures toks == IndentCommentsFrom(old(toks), tokens)
      ensures Solid(toks) == Solid(old(toks))
    {
      var i: nat := tokens;
      while i < |toks|
        invariant i <= |toks| && StandaloneTestEnds(toks, i)
        invariant IndentCommentsFrom(toks, i) == IndentCommentsFrom(old(toks), tokens)
        decreases |toks| - i
      {
        CommentTurnKeepsPre(toks, i);
        i := CommentStep(i);
      }
      IndentCommentsKeepsSolid(old(toks), tokens);
    }

    /** The body of the loop of `indentComments` at the token `i`; returns the index visited next. */
    method CommentStep(i: nat) returns (next: nat)
      requires i < |toks| && StandaloneTestEnds(toks, i)
      modifies this
      ensures Turn(toks, next) == CommentTurn(old(toks), i)
    {
      ghost var s := toks;
      var before := |toks|;
      var t := toks[i];
      if t.cls == Comment {
        var first: Option<nat> := Some(i);
        if !t.BeginsLine() && i > 0 {
          var prev := toks[i - 1];
          if prev.cls != Whitespace {
            first := None;
          } else if prev.BeginsLine() {
            first := Some(i - 1);
          } else {
            // the predecessor test of `indentComments` would never end here
            assert false;
          }
        }
        assert first == LineStartOf(s, i);
        if first.Some? {
          var anchor := NextAnchor(i);
          if anchor.Some? && !Match(toks[anchor.value], ReservedWord, "end")
                          && !Match(toks[anchor.value], ReservedWord, "until") {
            assert AnchorCol(s, i) == Some(toks[anchor.value].col);
            var _ := IndentLine(first.value, toks[anchor.value].col);
          }
        }
      }
      next := i + 1 + |toks| - before;
    }

    /** The inner loop of `indentComments`: the first token after `i` that is neither whitespace nor comment. */
    method NextAnchor(i: nat) returns (r: Option<nat>)
      requires i < |toks|
      ensures r == NextSubstantive(toks, i)
    {
      var next := i + 1;
      while next < |toks| && (toks[next].cls == Comment || toks[next].cls == Whitespace)
        invariant i < next <= |toks|
        invariant NextSubstantive(toks, i) == (if next < |toks| then NextSubstantive(toks, next - 1) else None)
      {
        next := next + 1;
      }
      return if next < |toks| then Some(next) else None;
    }
  }
}
