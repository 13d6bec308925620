# Token-list layout engine of `Indent.java`, in Dafny

This project models the editing engine that re-indents a lexed source file of a Pascal-like
language. The engine works on a doubly linked list of tokens. Each token has a text, a class
(`whitespace`, `comment`, `reserved-word`, …), a 32-bit flag word and a row and column. Its
operations work in place:

- shift columns to the end of a line (`changeColUntilEOL`);
- shift rows to the end of the list (`changeRowUntilEOF`);
- splice in a line-break token so that a blank line follows a line (`ensureBlankLineAfter`);
- resize, remove or insert the leading whitespace of a line (`indentLine`);
- align each comment that stands on its own line to the next real token (`indentComments`);
- look tokens up (`Token.match`, `skipWhitespaceAndComments`, `skipUntil`);
- keep a stack of indent kinds with their weights (`indentLevel`, `IndentContext`).

Layout of the model:

- `tokens.dfy` (`Tokens`): the token record, its flag bits as `bv32`, class names, and the
  case-insensitive `match`.
- `positions.dfy` (`Positions`): the column and row shifts as functions on a token sequence, and
  exactly where the column shift stops.
- `blank_lines.dfy` (`BlankLines`): what `ensureBlankLineAfter` does to a sequence.
- `indent_lines.dfy` (`IndentLines`): what `indentLine` does to a sequence, case by case.
- `comments.dfy` (`CommentAlignment`): what one turn of the `indentComments` loop does, and the
  whole pass.
- `token_list.dfy` (`TokenLists`): the class `TokenList`. Its field `toks` holds the list from the
  head, so the links of the token at index `i` are the tokens at `i - 1` and `i + 1`. Every
  operation is a method with the source's loops. Each method is proved to leave `toks` equal to the
  specification function applied to the old list, so the lemmas about those functions hold for
  the methods.
- `indent_context.dfy` (`IndentContexts`): `indentLevel` and the class `IndentContext`, whose
  stack is a `seq<string>` field with its top at the end.

A null token becomes `None` (for `ensureBlankLineAfter`) or a precondition. A token's identity
becomes its index, so methods that return a token return an index.

The model follows the code where the code does something its comments do not say:

- `changeColUntilEOL` updates a token before it checks the row. The first token on the next row
  is therefore shifted as well (`LineSpanEnd`).
- In the insertion case, `indentLine` returns the token it was given. That token now sits one
  place to the right, after the new whitespace, and no longer begins the line (see Findings).
- `IndentContext` is a plain stack. It keeps no running level and no minimum level.
  `unindentNext` is `unindent`.
- In `indentComments`, the loop over predecessors at `Indent.java:570` re-reads the same
  predecessor forever. It only ever looks at the comment's immediate predecessor. If that
  predecessor is whitespace without the begins-line bit, the loop never ends. That case is a
  precondition of the pass (`StandaloneTestEnds`), and the pass is proved to preserve it.
- The for-each iterator of `indentComments` already points at the successor when the body runs.
  A token inserted or removed before the comment therefore shifts the index of the next token
  visited by one (`CommentTurn`).

## Model

| member | source | states |
|---|---|---|
| Tokens.ToLower | Indent.java:161-164 | the Java code never lower-cases; this is the reference definition against which `match` is proved: it keeps the length and maps each character on its own |
| Tokens.CharsEqualIgnoreCase | Indent.java:161-164 | two characters are equal ignoring case as `equalsIgnoreCase` compares them: equal, equal once upper-cased, or equal once upper- and then lower-cased |
| Tokens.EqualsIgnoreCase | Indent.java:161-164 | `equalsIgnoreCase`: the texts have the same length and each pair of characters is equal ignoring case |
| Tokens.EqualsIgnoreCaseIsLowerEq | Indent.java:161-164 | Java's character-by-character `equalsIgnoreCase` holds exactly when both texts lower-case to the same string |
| Tokens.Match | Indent.java:161-164 | `match` holds iff the class is equal and the texts are equal ignoring case |
| Tokens.ClosesBlock | Indent.java:592-594 | the anchor matches the reserved word `end` or `until`, in any case |
| Tokens.ClosesBlockAnyCase | Indent.java:592-594 | `END` and `Until` reserved words close a block; an identifier `end` and a reserved word `ends` do not |
| Positions.ShiftCols | Indent.java:444-452 | adds `delta` to the columns of an index range and keeps the length; `LineSpanEnd` says where the range of `changeColUntilEOL` stops |
| Positions.ShiftRows | Indent.java:462-466 | adds `delta` to the rows of an index range; the length is kept and each token differs at most in its row |
| Positions.SpanEndFrom | Indent.java:445-451 | the column loop stops one past the first token on another row, or at the end of the list |
| Positions.LineSpanEnd | Indent.java:444-452 | the shifted range starts at `start`; every token in it but the last is on `start`'s row; when it stops before the end, its last token is on another row |
| Positions.ColShiftCharacterized | Indent.java:444-452 | after `changeColUntilEOL`, only columns change; token `k` moves by `delta` iff it is `start` or follows it with only tokens of `start`'s row in between |
| Positions.RowShiftKeepsRest | Indent.java:462-466 | after `changeRowUntilEOF`, tokens before `start` are unchanged and every later token differs only by `delta` rows |
| Positions.SameRowBetweenShifted | Indent.java:444-452 | "only tokens of one row in between" depends only on rows, so it carries over to a list whose rows match at an offset |
| BlankLines.FindEndsLine | Indent.java:479-481 | the first token from `i` on that carries ends-line; if there is none, no token from `i` on carries it |
| BlankLines.BlankLineSite | Indent.java:473-492 | a break site is a line end at or after the token whose successor exists and does not carry ends-line, with no line end before it; conversely, when the token is not last and its line end has such a successor, that line end is the site |
| BlankLines.NewlineBefore | Indent.java:493-494 | the line-break token is whitespace with both line bits and the successor's other bits |
| BlankLines.BreakAfter | Indent.java:493-498 | linking the line break in after `e` adds exactly one token and keeps the tokens up to `e` |
| BlankLines.BlankLineAfter | Indent.java:473-499 | `ensureBlankLineAfter` leaves the list as it is or adds exactly one token |
| BlankLines.BlankLineUnchangedIff | Indent.java:473-492 | the list is unchanged iff the token is null or last, no token ends its line, the line end is last, or the line end's successor already ends a line |
| BlankLines.BlankLineInserted | Indent.java:493-498 | otherwise exactly one token is added after the line end: text `"\n"`, whitespace, the successor's old row, column 0, both line bits, the successor's other bits; the successor and all later tokens move down one row; earlier tokens are unchanged |
| BlankLines.BlankLineIdempotent | Indent.java:473-499 | a second call with the same token changes nothing |
| BlankLines.LineEndFlagsKept | Indent.java:487-488 | the flag assignment on the line-end token leaves its flags as they were, because `n ^ ~n` is all ones |
| IndentLines.IndentLinePre | Indent.java:510-532 | the resize and removal branches need a successor of the whitespace (`start.getNext()` is dereferenced) |
| IndentLines.KeepsLine | Indent.java:510-548 | the cases in which `indentLine` edits nothing: whitespace that ends its line or already has width `level`, or a token that is not whitespace with `level <= 0` |
| IndentLines.Resized | Indent.java:513-521 | the resize keeps the length and gives the whitespace exactly `level` characters |
| IndentLines.Removed | Indent.java:522-532 | the removal shortens the list by one, and the token now at `start` (the old successor) begins the line |
| IndentLines.IndentBefore | Indent.java:540-541 | the new token is whitespace with begins-line, without ends-line, and with the other bits of `start` |
| IndentLines.Inserted | Indent.java:535-548 | the insertion lengthens the list by one and puts whitespace of width `level` at `start` |
| IndentLines.IndentLine | Indent.java:510-551 | `indentLine` adds or removes at most one token, and the token it returns is in the new list |
| IndentLines.Unlinked | Indent.java:522-529 | unlinking `start` drops it, moves later tokens one place left and gives its successor the begins-line bit |
| IndentLines.LinkedBefore | Indent.java:540-548 | linking a token in before `start` puts it at `start`, moves the rest one place right, and clears the begins-line bit of the old `start` |
| IndentLines.LinkedBeforeSplice | Indent.java:544-548 | the splice followed by the flag update is exactly `LinkedBefore` |
| IndentLines.IndentLineUnchangedIff | Indent.java:510-551 | `indentLine` leaves the list alone iff `start` is whitespace that carries ends-line, or has the width `level`, or `start` is not whitespace and `level <= 0`; `start` is then returned |
| IndentLines.ResizedFacts | Indent.java:513-521 | the resized token has exactly `level` spaces; every other token keeps all but its column, and the column moves by the change in width iff the shift from the successor reaches it |
| IndentLines.RemovedAt | Indent.java:522-531 | each token after the removed whitespace moves one place left with text, class and row kept; only the successor gains begins-line; the column moves by minus the removed width iff the shift reaches it |
| IndentLines.RemovedFacts | Indent.java:522-532 | the removal shortens the list by one, keeps earlier tokens, and gives the successor begins-line together with its other bits |
| IndentLines.InsertedAt | Indent.java:535-550 | each token from `start` on moves one place right with text, class and row kept; only `start` changes flags; the column moves by `level` iff the shift from `start` reaches it |
| IndentLines.InsertedFacts | Indent.java:535-550 | the insertion adds one token at `start`, built from `start`'s row, column and flags, and keeps earlier tokens |
| IndentLines.IndentLineResized | Indent.java:511-521 | resize case: the whitespace becomes exactly `level` spaces, the columns from its successor move by `level - oldWidth` as the column shift defines, nothing else changes, and `start` is returned |
| IndentLines.IndentLineRemoved | Indent.java:522-532 | removal case: the whitespace is spliced out, the successor takes its index with begins-line added, the columns move by `-oldWidth`, the length drops by one, and the successor is returned |
| IndentLines.IndentLineInserted | Indent.java:535-550 | insertion case: a whitespace token of `level` spaces at `start`'s old row and column, with begins-line, without ends-line and with `start`'s other bits, goes in before `start`; `start` loses begins-line; it and the tokens the shift reaches move right by `level`; `start` is returned |
| IndentLines.SolidAppend | Indent.java:510-551 | the non-whitespace projection distributes over concatenation |
| IndentLines.SolidPointwise | Indent.java:510-551 | lists that agree token by token on class, and on text and row of non-whitespace tokens, have the same non-whitespace projection |
| IndentLines.SolidOneWhitespaceMore | Indent.java:522-548 | adding one whitespace token, with the tokens after it agreeing on their non-whitespace parts, keeps the non-whitespace projection |
| IndentLines.RemovedKeepsSolid | Indent.java:522-532 | the removal keeps every non-whitespace token's text, class, row and order |
| IndentLines.InsertedKeepsSolid | Indent.java:535-550 | the insertion keeps every non-whitespace token's text, class, row and order |
| IndentLines.IndentLineKeepsSolid | Indent.java:510-551 | `indentLine` only edits layout: the non-whitespace tokens keep their text, class, row and order |
| IndentLines.IndentLineResizeIdempotent | Indent.java:510-521 | with whitespace at `start` and a positive level, a second call with the same level on the returned token changes nothing |
| IndentLines.IndentLineRemoveIdempotent | Indent.java:522-532 | with `level <= 0`, a second call on the returned token changes nothing, unless the removed whitespace was followed by more whitespace to remove |
| IndentLines.IndentLineRemoveNotIdempotent | Indent.java:522-532 | with `level <= 0`, when the removed whitespace is followed by whitespace of another width without ends-line, a second call on the returned token removes that too |
| IndentLines.IndentLineInsertNotIdempotent | Indent.java:535-550 | in the insertion case the returned token does not begin its line, and a second call on it inserts another whitespace token |
| IndentLines.IndentLineIntended | Indent.java:505-551 | `indentLine` as documented: the same edits, returning the token that begins the line afterwards |
| IndentLines.IndentLineIntendedIdempotent | Indent.java:505-551 | the documented version edits the list as the code does, returns a token that begins its line after an insertion or a removal, and a second call on that token changes nothing (with `level <= 0`, unless the removed whitespace was followed by more whitespace to remove) |
| CommentAlignment.NextSubstantive | Indent.java:587-590 | the first later token that is neither whitespace nor comment, with every token in between whitespace or comment; if there is none, all later tokens are |
| CommentAlignment.StandaloneTestEnds | Indent.java:569-579 | the predecessor loop ends for every comment from `lo` on: no comment that does not begin its line follows whitespace without begins-line |
| CommentAlignment.LineStartOf | Indent.java:565-582 | the token `indentLine` is applied to is the comment itself or the whitespace just before it; none after a token that is not whitespace |
| CommentAlignment.AnchorCol | Indent.java:586-596 | the column of the next token that is neither whitespace nor comment; none when there is no such token or it is `end` or `until` |
| CommentAlignment.CommentTurn | Indent.java:560-598 | one turn changes the length by at most one, and the next index visited is one past the new position of the token visited |
| CommentAlignment.IndentLineLength | Indent.java:510-551 | `indentLine` adds or removes at most one token |
| CommentAlignment.PreAfterInsert | Indent.java:535-550 | after an insertion before a comment, no later comment has a predecessor that would hang the standalone test |
| CommentAlignment.PreAfterResize | Indent.java:511-521 | after a resize, no later comment has a predecessor that would hang the standalone test |
| CommentAlignment.PreAfterRemove | Indent.java:522-532 | after a removal, no later comment has a predecessor that would hang the standalone test |
| CommentAlignment.CommentTurnKeepsPre | Indent.java:560-599 | one turn moves forward within the list and keeps the guard that makes the standalone test end |
| CommentAlignment.CommentTurnSkips | Indent.java:561-596 | non-comments, comments that do not begin their line and follow a token that is not whitespace, and comments with no anchor or with `end`/`until` as anchor leave the list alone |
| CommentAlignment.CommentAligned | Indent.java:569-598 | a standalone comment with a usable anchor, whose leading whitespace (if any) does not carry ends-line, ends up with leading whitespace of exactly the anchor's column (none when that column is not positive), and it is the token just before the next one visited |
| CommentAlignment.CommentBehindLineEndSkipped | Indent.java:511-512 | a comment whose leading whitespace carries ends-line is not aligned, because `indentLine` leaves such whitespace alone |
| CommentAlignment.AlignedByInsert | Indent.java:535-550 | when whitespace is inserted before a comment, the comment follows whitespace of width `c` |
| CommentAlignment.AlignedByResize | Indent.java:511-521 | when the comment's leading whitespace is resized, the comment follows whitespace of width `c` |
| CommentAlignment.AlignedByRemove | Indent.java:522-532 | when the comment's leading whitespace is removed, the comment begins its line |
| CommentAlignment.CommentTurnKeepsSolid | Indent.java:560-598 | one turn keeps the non-whitespace tokens |
| CommentAlignment.IndentCommentsFrom | Indent.java:559-600 | the pass from index `i` to the end, as one loop turn after another |
| CommentAlignment.IndentCommentsKeepsSolid | Indent.java:559-600 | the whole pass keeps every non-whitespace token's text, class, row and order |
| TokenLists.TokenList.SkipWhitespaceAndComments | Indent.java:402-410 | returns the first token after `start` that is neither whitespace nor comment, or `None` when there is none |
| TokenLists.TokenList.SkipUntil | Indent.java:426-434 | returns the first token from `start` on (itself included) that matches the class and text, every token before it fails to match, and `None` means that none matches |
| TokenLists.TokenList.ChangeColUntilEOL | Indent.java:444-452 | the list becomes the column shift of the old list over `LineSpanEnd` |
| TokenLists.TokenList.ChangeRowUntilEOF | Indent.java:462-466 | the list becomes the old list with `delta` added to the rows from `start` to the end |
| TokenLists.TokenList.LineEnd | Indent.java:479-481 | the loop finds the first token from `from` on that carries ends-line |
| TokenLists.TokenList.EnsureBlankLineAfter | Indent.java:473-499 | the list becomes `BlankLineAfter` of the old list |
| TokenLists.TokenList.BreakLineAfter | Indent.java:487-498 | the flag assignment changes nothing; unless the successor ends a line, the line-break token is linked in and later rows move down |
| TokenLists.TokenList.SpaceText | Indent.java:517-520 | the `+=` loop builds exactly `level` spaces (none when `level` is not positive) |
| TokenLists.TokenList.IndentLine | Indent.java:510-551 | the list and returned index are those of the `IndentLine` function on the old list |
| TokenLists.TokenList.ResizeIndent | Indent.java:514-520 | resize branch: the list becomes `Resized` of the old list |
| TokenLists.TokenList.RemoveIndent | Indent.java:522-531 | removal branch: the list becomes `Removed` of the old list |
| TokenLists.TokenList.InsertIndent | Indent.java:536-549 | insertion branch: the list becomes `Inserted` of the old list |
| TokenLists.TokenList.LinkBefore | Indent.java:544-548 | the relinking leaves the list as `LinkedBefore` of the old list |
| TokenLists.TokenList.IndentComments | Indent.java:559-600 | starting from the token `tokens`, the list becomes `IndentCommentsFrom` of the old list from that index, and the non-whitespace tokens are unchanged |
| TokenLists.TokenList.CommentStep | Indent.java:561-598 | one loop body does what `CommentTurn` says, and returns the next index visited |
| TokenLists.TokenList.NextAnchor | Indent.java:587-590 | the inner loop finds the first token after the comment that is neither whitespace nor comment |
| IndentContexts.IndentLevel | Indent.java:323-325 | the weight is 0 or 1, and 0 exactly for the virtual round-bracket kind |
| IndentContexts.IndentContext.constructor | Indent.java:331-334 | a new context has an empty stack |
| IndentContexts.IndentContext.Pop | Indent.java:341-343 | the old stack is the new stack with the returned kind on top |
| IndentContexts.IndentContext.Push | Indent.java:350-352 | the kind is put on top of the old stack |
| IndentContexts.IndentContext.Indent | Indent.java:360-362 | the kind is put on top of the old stack |
| IndentContexts.IndentContext.Unindent | Indent.java:367-369 | the top kind is removed |
| IndentContexts.IndentContext.UnindentNext | Indent.java:374-376 | the top kind is removed, as in `unindent` |
| IndentContexts.IndentContext.TopClassIs | Indent.java:389-391 | true iff the kind on top of the stack equals the given kind |

## Left out

- The list iterator (`Indent.java:189-285`) is not modelled. Traversals are index ranges. The iterator's `previous()` returning the outer `prev` field is never used by the core.
- `clone`, the getters and setters, and the `Token` constructor are folded into the `Tok` record and its update expressions.
- The dangling `prev`/`next` links of a token removed by `indentLine` have no counterpart in a sequence of tokens.
- Null arguments and Java exceptions are preconditions, not modelled failures. This covers:
  - a null or last `start` for `skipWhitespaceAndComments`;
  - a null `start` for `skipUntil`, `changeColUntilEOL` and `changeRowUntilEOF`;
  - a null `tokens` for `indentComments` (the start index must be inside the list);
  - a missing successor in the resize and removal cases of `indentLine` (`IndentLinePre`);
  - popping or peeking an empty `IndentContext` stack.
- IndentContexts.IndentContext.constructor: the Java field `indentsStack` is never initialised, so every `IndentContext` operation would fail on a null stack. The model starts from an empty stack.
- IndentContexts.IndentContext.TopClassIs: null kinds are not modelled. The stack holds strings, and the null comparison at `Indent.java:390` therefore does not arise.
- Tokens.Match: case-insensitive comparison covers ASCII letters only. Java's `equalsIgnoreCase` also folds the rest of Unicode.
- Rows, columns, levels and text lengths are unbounded integers. Java's 32-bit `int` overflow is not modelled.
- TokenLists.TokenList.IndentComments: requires `StandaloneTestEnds`. On a list where some comment that does not begin its line follows whitespace without the begins-line bit, the Java loop at `Indent.java:570` does not terminate. The model does not describe that run.
- No property states that each column equals the sum of the widths before it on its row. The code does not keep that true, because `changeColUntilEOL` also shifts the first token of the next row.

## Findings

| source | as written | input that shows it | evidently intended | confidence | as-written member | corrected member |
|---|---|---|---|---|---|---|
| Indent.java:550 | in the insertion case `indentLine` returns `start`, which now follows the new whitespace and does not begin its line, although its documentation (Indent.java:507-508) promises the token at the beginning of the line | `start` not whitespace, `level > 0`: a second `indentLine` on the returned token inserts a second whitespace token | return the new whitespace token, after which a second call changes nothing | medium, not executed | IndentLines.IndentLineInsertNotIdempotent | IndentLines.IndentLineIntendedIdempotent |

The corrected `IndentLineIntended` differs from `IndentLine` only in the returned index. No caller
in this core reads that index (`indentComments` discards it), so `TokenList.IndentLine` keeps the
code's return value and every other result of the model holds for both.
