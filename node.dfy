/** Groovy's mutable `groovy.util.Node`, restricted to what the parent POM code uses: a name, the value
    it was created with (here always text or nothing), and an ordered list of children. */
module Xml {
  import opened Wrappers
  import opened Trees

  class Node {
    const name: string
    const text: Option<string>
    var children: seq<Node>
    /** The tree this node currently denotes. */
    ghost var Value: Tree
    /** This node and all its descendants. */
    ghost var Repr: set<object>

    /** Each child is owned by this node (its footprint lies inside ours and does not contain us)
        and `Value` is this node's name and text over its children's values, in order. */
    ghost predicate Valid()
      reads this, Repr
      decreases Repr
    {
      this in Repr &&
      Value.name == name && Value.text == text && |Value.children| == |children| &&
      forall i :: 0 <= i < |children| ==>
        children[i] in Repr && children[i].Repr <= Repr && this !in children[i].Repr &&
        children[i].Value == Value.children[i] && children[i].Valid()
    }

    /** `new Node(null, name, value)`: a detached root. */
    constructor (name: string, text: Option<string>)
      ensures Valid() && fresh(Repr) && Repr == {this}
      ensures this.name == name && this.text == text && children == []
      ensures Value == Leaf(name, text)
    {
      this.name, this.text := name, text;
      children := [];
      Value := Leaf(name, text);
      Repr := {this};
    }

    /** `appendNode(name, value)`: adds one fresh childless node after the existing children and
        returns it; the existing children stay where and what they were. */
    method AppendNode(childName: string, childText: Option<string>) returns (c: Node)
      requires Valid()
      modifies this
      ensures Valid() && fresh(c) && c.Valid()
      ensures c.name == childName && c.text == childText && c.children == [] && c.Repr == {c}
      ensures c.Value == Leaf(childName, childText)
      ensures children == old(children) + [c] && Repr == old(Repr) + {c}
      ensures Value == Tree(name, text, old(Value.children) + [Leaf(childName, childText)])
    {
      c := new Node(childName, childText);
      children := children + [c];
      Value := Tree(name, text, Value.children + [c.Value]);
      Repr := Repr + {c};
    }

    /** Ghost bookkeeping once the last child `c`, appended after children with values `kids`, has
        been filled in: widens the footprint by what `c` gained and records `c`'s new value. */
    ghost method Adopt(c: Node, kids: seq<Tree>)
      requires this in Repr && |children| == |kids| + 1 && children[|kids|] == c
      requires Value == Tree(name, text, kids + [Leaf(c.name, c.text)])
      requires forall i :: 0 <= i < |kids| ==>
        children[i] in Repr && children[i].Repr <= Repr && this !in children[i].Repr &&
        children[i].Value == kids[i] && children[i].Valid()
      requires c.Valid() && this !in c.Repr
      modifies this
      ensures Valid() && Repr == old(Repr) + c.Repr && children == old(children)
      ensures Value == Tree(name, text, kids + [c.Value])
    {
      Repr := Repr + c.Repr;
      Value := Tree(name, text, kids + [c.Value]);
    }
  }
}
