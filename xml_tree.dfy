/** An abstract XML element tree: what a builder block produces before it is
    serialised. Namespaces, attributes and the serialised text are not modelled. */
module XmlTree {
  import opened Wrappers

  datatype Element =
    | Node(name: string, children: seq<Element>)   // an element with child elements
    | Leaf(name: string, text: Option<string>)     // an element holding text (none for nil)
    | Helper(helper: string, inputs: seq<string>)  // a builder helper's output: only which values it writes

  /** The tag of an element; an opaque helper output has none. */
  function Tag(e: Element): Option<string> {
    match e
    case Node(n, _) => Some(n)
    case Leaf(n, _) => Some(n)
    case Helper(_, _) => None
  }

  /** Number of elements named `name` anywhere in `e`, `e` itself included. */
  function Count(e: Element, name: string): nat
    decreases e, 1
  {
    (if Tag(e) == Some(name) then 1 else 0) +
    (if e.Node? then CountAll(e.children, name) else 0)
  }

  /** Number of elements named `name` anywhere in the trees `es`. */
  function CountAll(es: seq<Element>, name: string): nat
    decreases es, 0
  {
    if es == [] then 0
    else CountAll(es[..|es| - 1], name) + Count(es[|es| - 1], name)
  }

  lemma {:induction false} CountAllAppend(a: seq<Element>, b: seq<Element>, name: string)
    ensures CountAll(a + b, name) == CountAll(a, name) + CountAll(b, name)
    decreases |b|
  {
    if b == [] {
      assert a + b == a;
    } else {
      assert (a + b)[..|a + b| - 1] == a + b[..|b| - 1];
      CountAllAppend(a, b[..|b| - 1], name);
    }
  }

  lemma CountAllSingle(e: Element, name: string)
    ensures CountAll([e], name) == Count(e, name)
  {
    assert [e][..0] == [];
  }

  /** The tags of a sequence of sibling elements, in document order. */
  function Tags(es: seq<Element>): seq<Option<string>> {
    seq(|es|, i requires 0 <= i < |es| => Tag(es[i]))
  }

  /** The first child of `e` named `name`, if any. */
  function Child(e: Element, name: string): (r: Option<Element>)
    ensures r.Some? <==> e.Node? && exists i :: 0 <= i < |e.children| && Tag(e.children[i]) == Some(name)
    ensures r.Some? ==> Tag(r.value) == Some(name) && r.value in e.children
    ensures r.Some? ==> (exists i :: 0 <= i < |e.children| && e.children[i] == r.value
                          && forall j :: 0 <= j < i ==> Tag(e.children[j]) != Some(name))
  {
    if e.Node? then FirstNamed(e.children, name) else None
  }

  function FirstNamed(es: seq<Element>, name: string): (r: Option<Element>)
    ensures r.Some? <==> exists i :: 0 <= i < |es| && Tag(es[i]) == Some(name)
    ensures r.Some? ==> Tag(r.value) == Some(name) && r.value in es
    ensures r.Some? ==> (exists i :: 0 <= i < |es| && es[i] == r.value
                          && forall j :: 0 <= j < i ==> Tag(es[j]) != Some(name))
  {
    if es == [] then None
    else if Tag(es[0]) == Some(name) then Some(es[0])
    else
      var r := FirstNamed(es[1..], name);
      assert forall i :: 1 <= i < |es| ==> es[i] == es[1..][i - 1];
      assert r.Some? ==> (exists i :: 1 <= i < |es| && es[i] == r.value
                            && forall j :: 0 <= j < i ==> Tag(es[j]) != Some(name))
      by {
        if r.Some? {
          var k :| 0 <= k < |es| - 1 && es[1..][k] == r.value
            && forall j :: 0 <= j < k ==> Tag(es[1..][j]) != Some(name);
          assert es[k + 1] == r.value;
          assert forall j :: 1 <= j < k + 1 ==> Tag(es[j]) != Some(name) by {
            forall j | 1 <= j < k + 1 ensures Tag(es[j]) != Some(name) {
              assert es[j] == es[1..][j - 1];
            }
          }
        }
      }
      r
  }

  /** Follows a path of child names from `e`, taking the first match at each step. */
  function Path(e: Element, names: seq<string>): Option<Element>
    decreases |names|
  {
    if names == [] then Some(e)
    else match Child(e, names[0])
      case None => None
      case Some(c) => Path(c, names[1..])
  }
}
