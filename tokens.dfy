/** Tokens of the layout engine: text, class, flag bits and position. */
module Tokens {

  datatype Option<T> = None | Some(value: T)

  // Flag bits of a token (Java `int`, modelled as 32 bits).
  const NoFlags: bv32 := 0
  const BeginsLineFlag: bv32 := 1
  const EndsLineFlag: bv32 := 2
  const ReservedWordsOnFlag: bv32 := 4
  const DirectivesOnFlag: bv32 := 8
  const IdentifiersOnFlag: bv32 := 16
  const InsertSpacesOnFlag: bv32 := 32
  const IndentOnFlag: bv32 := 64
  const WrapOnFlag: bv32 := 128
  const BlankLinesOnFlag: bv32 := 256

  /** Both line-boundary bits together. */
  const LineFlags: bv32 := 3

  // Token classes the engine looks at.
  const VirtualRoundBrackets := "virtual-round-bracket"
  const Whitespace := "whitespace"
  const Comment := "comment"
  const ReservedWord := "reserved-word"

  /** One token of the list: `row` and `col` are zero-based. */
  datatype Tok = Tok(text: string, cls: string, flags: bv32, row: int, col: int)
  {
    predicate BeginsLine() { flags & BeginsLineFlag == BeginsLineFlag }
    predicate EndsLine() { flags & EndsLineFlag == EndsLineFlag }
    predicate IsWhitespace() { cls == Whitespace }
    predicate IsComment() { cls == Comment }
    /** Neither whitespace nor comment: a token a comment can be aligned to. */
    predicate IsSubstantive() { !IsWhitespace() && !IsComment() }
    /** The token with its begins-line bit set. */
    function WithBeginsLine(): Tok { this.(flags := flags | BeginsLineFlag) }
    /** The token with its begins-line bit cleared. */
    function WithoutBeginsLine(): Tok { this.(flags := flags & !BeginsLineFlag) }
  }

  /** The token equals `u` except, possibly, in its column. */
  predicate SameButCol(t: Tok, u: Tok) {
    t.text == u.text && t.cls == u.cls && t.flags == u.flags && t.row == u.row
  }

  // ASCII case mapping (the model does not cover Unicode case folding).

  function LowerChar(c: char): char {
    if 'A' <= c <= 'Z' then (c as int + 32) as char else c
  }

  function UpperChar(c: char): char {
    if 'a' <= c <= 'z' then (c as int - 32) as char else c
  }

  /** Character test of `String.equalsIgnoreCase`: equal, equal upper-cased, or equal after both mappings. */
  predicate CharsEqualIgnoreCase(a: char, b: char) {
    a == b || UpperChar(a) == UpperChar(b) || LowerChar(UpperChar(a)) == LowerChar(UpperChar(b))
  }

  /** `String.equalsIgnoreCase`: same length and every position equal ignoring case. */
  predicate EqualsIgnoreCase(a: string, b: string) {
    |a| == |b| && forall i :: 0 <= i < |a| ==> CharsEqualIgnoreCase(a[i], b[i])
  }

  /** The text with every ASCII capital lower-cased. */
  function ToLower(s: string): (r: string)
    ensures |r| == |s|
    ensures forall i :: 0 <= i < |s| ==> r[i] == LowerChar(s[i])
  {
    seq(|s|, i requires 0 <= i < |s| => LowerChar(s[i]))
  }

  /** On ASCII letters the three-way character test is plain comparison after lower-casing. */
  lemma CharsEqualIgnoreCaseIsLowerEq(a: char, b: char)
    ensures CharsEqualIgnoreCase(a, b) <==> LowerChar(a) == LowerChar(b)
  {
  }

  /** Ignoring case is the same as comparing the lower-cased strings. */
  lemma EqualsIgnoreCaseIsLowerEq(a: string, b: string)
    ensures EqualsIgnoreCase(a, b) <==> ToLower(a) == ToLower(b)
  {
    forall i | 0 <= i < |a| && i < |b| {
      CharsEqualIgnoreCaseIsLowerEq(a[i], b[i]);
    }
  }

  /** `Token.match`: the class is the same and the text is the same ignoring case. */
  function Match(t: Tok, cls: string, text: string): (r: bool)
    ensures r <==> t.cls == cls && ToLower(t.text) == ToLower(text)
  {
    EqualsIgnoreCaseIsLowerEq(t.text, text);
    t.cls == cls && EqualsIgnoreCase(t.text, text)
  }

  /** `end` and `until` close blocks, whatever their case. */
  predicate ClosesBlock(t: Tok) {
    Match(t, ReservedWord, "end") || Match(t, ReservedWord, "until")
  }

  /** The block-closing test ignores case but not class, and wants the whole word. */
  lemma ClosesBlockAnyCase(flags: bv32, row: int, col: int)
    ensures ClosesBlock(Tok("END", ReservedWord, flags, row, col))
    ensures ClosesBlock(Tok("Until", ReservedWord, flags, row, col))
    ensures !ClosesBlock(Tok("end", "identifier", flags, row, col))
    ensures !ClosesBlock(Tok("ends", ReservedWord, flags, row, col))
  {
  }

  /** A string of `n` spaces. */
  function Spaces(n: nat): string {
    seq(n, _ => ' ')
  }
}
