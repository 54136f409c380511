/**
 * The element tree that the prompt components build.
 *
 * An `Element` is an intrinsic tag such as `<purpose>`; its `rawHtml` is the
 * `dangerouslySetInnerHTML.__html` payload, emitted verbatim when the tree is
 * serialised. A `Text` is a string child. A `Fragment` is an array of nodes
 * returned in place of a single node; it renders as its items, with no tag.
 */
module Markup {
  import opened Wrappers

  /** An attribute name and value, in the order they were written. */
  type Attribute = (string, string)

  datatype Node =
    | Element(tag: string, attrs: seq<Attribute>, children: seq<Node>, rawHtml: Option<string>)
    | Text(text: string)
    | Fragment(items: seq<Node>)

  /** The value of the first attribute called `name`, if any. */
  function AttrValue(attrs: seq<Attribute>, name: string): (r: Option<string>)
    ensures r.Some? ==> exists i :: 0 <= i < |attrs| && attrs[i] == (name, r.value)
    ensures r.None? ==> forall i :: 0 <= i < |attrs| ==> attrs[i].0 != name
  {
    if attrs == [] then None
    else if attrs[0].0 == name then Some(attrs[0].1)
    else AttrValue(attrs[1..], name)
  }

  /**
   * The nodes a list of children renders as: every array child is spliced in
   * place, recursively, so that no `Fragment` remains.
   */
  function Flatten(nodes: seq<Node>): (r: seq<Node>)
    ensures forall i :: 0 <= i < |r| ==> !r[i].Fragment?
    decreases nodes
  {
    if nodes == [] then [] else FlattenNode(nodes[0]) + Flatten(nodes[1..])
  }

  function FlattenNode(n: Node): (r: seq<Node>)
    ensures forall i :: 0 <= i < |r| ==> !r[i].Fragment?
    decreases n
  {
    match n
    case Fragment(items) => Flatten(items)
    case _ => [n]
  }

  /**
   * A tree the serialiser accepts: no element carries both a raw-HTML payload
   * and children (React refuses to render such an element).
   */
  predicate WellFormed(n: Node) {
    match n
    case Element(_, _, children, rawHtml) =>
      (rawHtml.Some? ==> children == []) && forall i :: 0 <= i < |children| ==> WellFormed(children[i])
    case Text(_) => true
    case Fragment(items) => forall i :: 0 <= i < |items| ==> WellFormed(items[i])
  }

  predicate AllWellFormed(nodes: seq<Node>) {
    forall i :: 0 <= i < |nodes| ==> WellFormed(nodes[i])
  }
}
