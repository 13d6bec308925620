/** Indent kinds, and the stack of them that a caller walking the grammar pushes and pops. */
module IndentContexts {
  import opened Tokens

  /**
   * `indentLevel`: the weight of an indent kind, used as a coefficient by the caller. Only the
   * virtual round-bracket kind weighs nothing, so it nests without moving any column.
   */
  function IndentLevel(kind: string): (w: nat)
    ensures w <= 1
    ensures w == 0 <==> kind == VirtualRoundBrackets
  {
    if kind != VirtualRoundBrackets then 1 else 0
  }

  /** `IndentContext`: a last-in first-out stack of indent kinds. */
  class IndentContext {
    /** The kinds on the stack, bottom first: the top is the last element. */
    var indents: seq<string>

    constructor ()
      ensures indents == []
    {
      indents := [];
    }

    /** `pop`: removes the top kind and returns it. */
    method Pop() returns (top: string)
      requires indents != []
      modifies this
      ensures old(indents) == indents + [top]
    {
      top := indents[|indents| - 1];
      indents := indents[..|indents| - 1];
    }

    /** `push`: puts `kind` on top. */
    method Push(kind: string)
      modifies this
      ensures indents == old(indents) + [kind]
    {
      indents := indents + [kind];
    }

    /** `indent`: one level deeper, of kind `kind`. */
    method Indent(kind: string)
      modifies this
      ensures indents == old(indents) + [kind]
    {
      Push(kind);
    }

    /** `unindent`: one level out; the removed kind is dropped. */
    method Unindent()
      requires indents != []
      modifies this
      ensures indents == old(indents)[..|old(indents)| - 1]
    {
      var _ := Pop();
    }

    /** `unindentNext`: the same as `unindent`. */
    method UnindentNext()
      requires indents != []
      modifies this
      ensures indents == old(indents)[..|old(indents)| - 1]
    {
      Unindent();
    }

    /** `topClassIs`: whether the kind on top of the stack is `kind`. */
    method TopClassIs(kind: string) returns (r: bool)
      requires indents != []
      ensures r <==> indents[|indents| - 1] == kind
    {
      var top := indents[|indents| - 1];
      r := top == kind;
    }
  }
}
