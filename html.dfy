/**
 * The plain-HTML overrides of `components/html.tsx`: paragraphs and lists lose
 * their wrapping tag, and a list item becomes a `- ` line of text.
 */
module HtmlOverrides {
  import opened Markup

  datatype Override = Paragraph | UnorderedList | OrderedList | ListItem

  /** The `htmlComponents` object: the tag each override is registered under. */
  function HtmlComponents(): (m: map<string, Override>)
    ensures m.Keys == {"p", "ul", "ol", "li"}
    ensures forall t :: t in m ==> Tag(m[t]) == t
  {
    map["p" := Paragraph, "ul" := UnorderedList, "ol" := OrderedList, "li" := ListItem]
  }

  /** The HTML tag an override stands in for. */
  function Tag(o: Override): string {
    match o
    case Paragraph => "p"
    case UnorderedList => "ul"
    case OrderedList => "ol"
    case ListItem => "li"
  }

  /** JavaScript's `String(x)` of one child: a string is itself, an element object is `[object Object]`, an array is its items joined by commas. */
  function JsString(n: Node): string
    decreases n
  {
    match n
    case Text(s) => s
    case Element(_, _, _, _) => "[object Object]"
    case Fragment(items) => JoinWithCommas(items)
  }

  function JoinWithCommas(nodes: seq<Node>): string
    decreases nodes
  {
    if nodes == [] then []
    else if |nodes| == 1 then JsString(nodes[0])
    else JsString(nodes[0]) + "," + JoinWithCommas(nodes[1..])
  }

  /**
   * `${props.children}`: no children is `undefined`, a single child is passed
   * on its own, and several are passed as an array.
   */
  function ChildrenString(children: seq<Node>): string {
    if children == [] then "undefined"
    else if |children| == 1 then JsString(children[0])
    else JsString(Fragment(children))
  }

  /** What each override renders for the given children. */
  function Apply(o: Override, children: seq<Node>): (r: Node)
    ensures !r.Element?
  {
    match o
    case ListItem => Text("- " + ChildrenString(children))
    case _ => Fragment(children)
  }

  /** `p`, `ul` and `ol` render their children in place: the result flattens to exactly what the children flatten to. */
  lemma PassThrough(o: Override, children: seq<Node>)
    requires o != ListItem
    ensures Flatten([Apply(o, children)]) == Flatten(children)
    ensures WellFormed(Apply(o, children)) <==> AllWellFormed(children)
  {
  }

  /** A list item is one line of text: `- ` followed by its children as a string. */
  lemma ListItemLine(children: seq<Node>)
    ensures var r := Apply(ListItem, children);
      r.Text? && |r.text| >= 2 && r.text[..2] == "- " && r.text[2..] == ChildrenString(children)
  {
  }

  /** A list item whose only child is the string `s` renders `- ` then `s`, two characters longer. */
  lemma ListItemOfText(s: string)
    ensures var r := Apply(ListItem, [Text(s)]);
      r.Text? && |r.text| == |s| + 2 && r.text[..2] == "- " && r.text[2..] == s
  {
  }
}
