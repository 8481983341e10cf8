/** The tree node as a mutable object, the way the parser builds it: a tag,
    an optional payload and a list of children that grows by appending.
    Module Ast describes the same nodes as values; this module exists to
    show the one place where the parser builds something no value can be,
    the operator fold of the expression production. */
module HeapAst {
  import opened Ast

  class AstNode {
    var tag: Tag
    var value: Option<Value>
    var children: seq<AstNode>

    /** A node starts without children. */
    constructor (tag: Tag, value: Option<Value>)
      ensures this.tag == tag && this.value == value && children == []
    {
      this.tag := tag;
      this.value := value;
      children := [];
    }

    /** Append one child; nothing else changes. */
    method AddChild(child: AstNode)
      modifies this
      ensures children == old(children) + [child]
      ensures tag == old(tag) && value == old(value)
    {
      children := children + [child];
    }
  }

  /** One round of the expression production's operator loop as written:
      the name of the left operand is rebound to the new node before the
      children are added, so the new node becomes its own first child and
      the previous left operand is dropped (the right operand is always a
      node parsed after the left one, so the two differ). */
  method FoldAsWritten(left: AstNode, operator: string, right: AstNode) returns (folded: AstNode)
    ensures fresh(folded)
    ensures folded.tag == Expression && folded.value == Some(Text(operator))
    ensures folded.children == [folded, right]
    ensures folded in folded.children && left !in folded.children[..1]
    ensures left != right ==> left !in folded.children
  {
    var l := new AstNode(Expression, Some(Text(operator)));
    l.AddChild(l);
    l.AddChild(right);
    folded := l;
  }

  /** The same round as the write statement's `+` loop does it, and as the
      model of the expression production does it: the previous left operand
      becomes the first child. */
  method FoldAsIntended(left: AstNode, operator: string, right: AstNode) returns (folded: AstNode)
    ensures fresh(folded)
    ensures folded.tag == Expression && folded.value == Some(Text(operator))
    ensures folded.children == [left, right]
    ensures folded !in folded.children
  {
    folded := new AstNode(Expression, Some(Text(operator)));
    folded.AddChild(left);
    folded.AddChild(right);
  }

  /** `a + b` parsed as written: the node for `+` has itself and `b` as its
      children, and `a` is gone. Every value tree has a node that is not its
      own child (lemma Ast.NoSelfChild), so no value tree describes this one. */
  method SumAsWritten() returns (sum: AstNode, a: AstNode, b: AstNode)
    ensures fresh(sum) && fresh(a) && fresh(b)
    ensures sum.children == [sum, b] && a !in sum.children
  {
    a := new AstNode(Identifier, Some(Text("a")));
    b := new AstNode(Identifier, Some(Text("b")));
    sum := FoldAsWritten(a, "+", b);
  }
}
