/** The value of an XML-like node tree: what a finished Groovy `Node` denotes, and the queries the
    properties of the parent POM are stated with. */
module Trees {
  import opened Wrappers

  /** A node's name, the text it was created with (its Groovy `value`) and its ordered children. */
  datatype Tree = Tree(name: string, text: Option<string>, children: seq<Tree>)

  /** A node without children, as `appendNode(name, value)` creates it. */
  function Leaf(name: string, text: Option<string>): Tree {
    Tree(name, text, [])
  }

  /** The names of `ts`, in order. */
  function Names(ts: seq<Tree>): (r: seq<string>)
    ensures |r| == |ts|
    ensures forall i :: 0 <= i < |ts| ==> r[i] == ts[i].name
  {
    if ts == [] then [] else [ts[0].name] + Names(ts[1..])
  }

  /** The texts of `ts`, in order. */
  function Texts(ts: seq<Tree>): (r: seq<Option<string>>)
    ensures |r| == |ts|
    ensures forall i :: 0 <= i < |ts| ==> r[i] == ts[i].text
  {
    if ts == [] then [] else [ts[0].text] + Texts(ts[1..])
  }

  /** The position of the first tree in `ts` called `name`, if there is one. */
  function Find(ts: seq<Tree>, name: string): (r: Option<nat>)
    ensures r.Some? ==> r.value < |ts| && ts[r.value].name == name
    ensures r.Some? ==> forall j :: 0 <= j < r.value ==> ts[j].name != name
    ensures r.None? <==> forall j :: 0 <= j < |ts| ==> ts[j].name != name
  {
    if ts == [] then None
    else if ts[0].name == name then Some(0)
    else match Find(ts[1..], name)
      case None => None
      case Some(i) => Some(i + 1)
  }

  /** The first child of `t` called `name`, the way Groovy's `t.name` path picks it when it is unique. */
  function Child(t: Tree, name: string): (r: Option<Tree>)
    ensures r.Some? <==> Find(t.children, name).Some?
    ensures r.Some? ==> r.value == t.children[Find(t.children, name).value] && r.value.name == name
  {
    match Find(t.children, name)
    case None => None
    case Some(i) => Some(t.children[i])
  }

  /** The subtree reached from `t` by taking, for each name of `path` in turn, the first child so called. */
  function At(t: Tree, path: seq<string>): (r: Option<Tree>)
    ensures path == [] ==> r == Some(t)
    ensures path != [] && r.Some? ==> r.value.name == path[|path| - 1]
    decreases |path|
  {
    if path == [] then Some(t)
    else match Child(t, path[0])
      case None => None
      case Some(c) => At(c, path[1..])
  }

  /** The text of the subtree at `path`, if that subtree exists and has text. */
  function TextAt(t: Tree, path: seq<string>): (r: Option<string>)
    ensures r.Some? ==> At(t, path).Some? && At(t, path).value.text == r
  {
    match At(t, path)
    case None => None
    case Some(n) => n.text
  }

  /** The child at position `i` is the one `Child` picks when no earlier child has its name. */
  lemma ChildIs(t: Tree, i: nat, name: string)
    requires i < |t.children| && t.children[i].name == name
    requires forall j :: 0 <= j < i ==> t.children[j].name != name
    ensures Child(t, name) == Some(t.children[i])
  {
  }
}
