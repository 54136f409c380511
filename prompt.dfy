/**
 * The prompt components of `components/prompt.tsx`: each maps its props to an
 * element tree. A `children` prop is the list of child nodes (an absent
 * `children` is the empty list); a prop with a default value is an `Option`
 * whose `None` takes the default.
 */
module PromptComponents {
  import opened Wrappers
  import opened Markup
  import Json
  import opened Naming

  const DataTitle := "You are provided with the following data:"
  const ToolsTitle := "You are provided with the following tools:"
  const InputTitle := "You are provided with the following inputs:"
  const OutputTitle := "Your response should be formatted as:"

  /** One entry of a chat history. */
  datatype Message = Message(role: string, content: string)

  /** The root of a prompt: its children, with no wrapper of its own. */
  function Prompt(children: seq<Node>): (r: Node)
    ensures !r.Element?
    ensures Flatten([r]) == Flatten(children)
    ensures WellFormed(r) <==> AllWellFormed(children)
  {
    Fragment(children)
  }

  /** A tag with no attributes around the given children. */
  function Section(tag: string, children: seq<Node>): (r: Node)
    ensures r.Element? && r.tag == tag && r.attrs == [] && r.children == children && r.rawHtml.None?
    ensures WellFormed(r) <==> AllWellFormed(children)
  {
    Element(tag, [], children, None)
  }

  /** A tag whose only attribute is `title`, around the given children. */
  function Titled(tag: string, title: string, children: seq<Node>): (r: Node)
    ensures r.Element? && r.tag == tag && |r.attrs| == 1 && AttrValue(r.attrs, "title") == Some(title)
    ensures r.children == children && r.rawHtml.None?
    ensures WellFormed(r) <==> AllWellFormed(children)
  {
    Element(tag, [("title", title)], children, None)
  }

  function Purpose(children: seq<Node>): (r: Node)
    ensures r.Element? && r.tag == "purpose" && r.attrs == [] && r.children == children && r.rawHtml.None?
    ensures WellFormed(r) <==> AllWellFormed(children)
  {
    Section("purpose", children)
  }

  function Background(children: seq<Node>): (r: Node)
    ensures r.Element? && r.tag == "background" && r.attrs == [] && r.children == children && r.rawHtml.None?
    ensures WellFormed(r) <==> AllWellFormed(children)
  {
    Section("background", children)
  }

  function Variables(children: seq<Node>): (r: Node)
    ensures r.Element? && r.tag == "variables" && r.attrs == [] && r.children == children && r.rawHtml.None?
    ensures WellFormed(r) <==> AllWellFormed(children)
  {
    Section("variables", children)
  }

  function Data(children: seq<Node>, title: Option<string>): (r: Node)
    ensures r.Element? && r.tag == "data" && r.children == children && r.rawHtml.None?
    ensures |r.attrs| == 1
    ensures title.None? ==> AttrValue(r.attrs, "title") == Some(DataTitle)
    ensures title.Some? ==> AttrValue(r.attrs, "title") == title
    ensures WellFormed(r) <==> AllWellFormed(children)
  {
    Titled("data", title.GetOr(DataTitle), children)
  }

  function Tools(children: seq<Node>, title: Option<string>): (r: Node)
    ensures r.Element? && r.tag == "tools" && r.children == children && r.rawHtml.None?
    ensures |r.attrs| == 1
    ensures title.None? ==> AttrValue(r.attrs, "title") == Some(ToolsTitle)
    ensures title.Some? ==> AttrValue(r.attrs, "title") == title
    ensures WellFormed(r) <==> AllWellFormed(children)
  {
    Titled("tools", title.GetOr(ToolsTitle), children)
  }

  /** A tag with no attributes whose content is either `children` or the verbatim `innerHtml`. */
  function RawCapable(tag: string, children: seq<Node>, innerHtml: Option<string>): (r: Node)
    ensures r.Element? && r.tag == tag && r.attrs == [] && r.children == children && r.rawHtml == innerHtml
    ensures WellFormed(r) <==> (innerHtml.None? || children == []) && AllWellFormed(children)
  {
    Element(tag, [], children, innerHtml)
  }

  function Tool(children: seq<Node>, innerHtml: Option<string>): (r: Node)
    ensures r.Element? && r.tag == "tool" && r.attrs == [] && r.children == children && r.rawHtml == innerHtml
    ensures WellFormed(r) <==> (innerHtml.None? || children == []) && AllWellFormed(children)
  {
    RawCapable("tool", children, innerHtml)
  }

  function Instruction(children: seq<Node>, innerHtml: Option<string>): (r: Node)
    ensures r.Element? && r.tag == "instruction" && r.attrs == [] && r.children == children && r.rawHtml == innerHtml
    ensures WellFormed(r) <==> (innerHtml.None? || children == []) && AllWellFormed(children)
  {
    RawCapable("instruction", children, innerHtml)
  }

  /**
   * An `instructions` tag holding one `instruction` per string, in order,
   * each carrying its string verbatim as raw HTML, then the given children.
   */
  function Instructions(instructions: Option<seq<string>>, children: seq<Node>): (r: Node)
    ensures r.Element? && r.tag == "instructions" && r.attrs == [] && r.rawHtml.None?
    ensures var xs := instructions.GetOr([]);
      && |r.children| == |xs| + |children|
      && (forall i :: 0 <= i < |xs| ==> r.children[i] == Element("instruction", [], [], Some(xs[i])))
      && r.children[|xs|..] == children
    ensures WellFormed(r) <==> AllWellFormed(children)
  {
    var xs := instructions.GetOr([]);
    var items := seq(|xs|, i requires 0 <= i < |xs| => Instruction([], Some(xs[i])));
    Element("instructions", [], items + children, None)
  }

  function UserInput(children: seq<Node>): (r: Node)
    ensures r.Element? && r.tag == "user-input" && r.attrs == [] && r.children == children && r.rawHtml.None?
    ensures WellFormed(r) <==> AllWellFormed(children)
  {
    Section("user-input", children)
  }

  function Example(children: seq<Node>): (r: Node)
    ensures r.Element? && r.tag == "example" && r.attrs == [] && r.children == children && r.rawHtml.None?
    ensures WellFormed(r) <==> AllWellFormed(children)
  {
    Section("example", children)
  }

  /**
   * An `examples` tag holding one `example` per string, in order, each
   * carrying its string verbatim as raw HTML, then the given children.
   */
  function Examples(examples: Option<seq<string>>, children: seq<Node>): (r: Node)
    ensures r.Element? && r.tag == "examples" && r.attrs == [] && r.rawHtml.None?
    ensures var xs := examples.GetOr([]);
      && |r.children| == |xs| + |children|
      && (forall i :: 0 <= i < |xs| ==> r.children[i] == Element("example", [], [], Some(xs[i])))
      && r.children[|xs|..] == children
    ensures WellFormed(r) <==> AllWellFormed(children)
  {
    var xs := examples.GetOr([]);
    var items := seq(|xs|, i requires 0 <= i < |xs| => Element("example", [], [], Some(xs[i])));
    Element("examples", [], items + children, None)
  }

  function InputFormat(children: seq<Node>, title: Option<string>): (r: Node)
    ensures r.Element? && r.tag == "input-format" && r.children == children && r.rawHtml.None?
    ensures |r.attrs| == 1
    ensures title.None? ==> AttrValue(r.attrs, "title") == Some(InputTitle)
    ensures title.Some? ==> AttrValue(r.attrs, "title") == title
    ensures WellFormed(r) <==> AllWellFormed(children)
  {
    Titled("input-format", title.GetOr(InputTitle), children)
  }

  /** An `output-format` tag: the children, a single space, then the `format` string. */
  function OutputFormat(children: seq<Node>, title: Option<string>, format: Option<string>): (r: Node)
    ensures r.Element? && r.tag == "output-format" && r.rawHtml.None?
    ensures |r.attrs| == 1
    ensures title.None? ==> AttrValue(r.attrs, "title") == Some(OutputTitle)
    ensures title.Some? ==> AttrValue(r.attrs, "title") == title
    ensures |r.children| == |children| + 2
    ensures r.children[..|children|] == children
    ensures r.children[|children|] == Text(" ")
    ensures format.None? ==> r.children[|children| + 1] == Text("")
    ensures format.Some? ==> r.children[|children| + 1] == Text(format.value)
    ensures WellFormed(r) <==> AllWellFormed(children)
  {
    var r := Titled("output-format", title.GetOr(OutputTitle), children + [Text(" "), Text(format.GetOr(""))]);
    assert AllWellFormed(r.children) <==> AllWellFormed(children) by {
      assert forall i :: |children| <= i < |r.children| ==> r.children[i].Text?;
    }
    r
  }

  /** The `message` line of one chat entry: the role, `": "`, then the JSON-quoted content. */
  function MessageLine(m: Message): (r: Node)
    ensures r.Element? && r.tag == "message" && r.attrs == [] && r.rawHtml.None?
    ensures r.children == [Text(m.role), Text(": "), Text(Json.Quote(m.content))]
    ensures WellFormed(r)
  {
    Element("message", [], [Text(m.role), Text(": "), Text(Json.Quote(m.content))], None)
  }

  /** A `chat-history` tag with one `message` per entry, in order; absent `messages` give an empty one. */
  function ChatHistory(messages: Option<seq<Message>>): (r: Node)
    ensures r.Element? && r.tag == "chat-history" && r.attrs == [] && r.rawHtml.None?
    ensures var ms := messages.GetOr([]);
      && |r.children| == |ms|
      && forall i :: 0 <= i < |ms| ==> r.children[i] == MessageLine(ms[i])
    ensures WellFormed(r)
  {
    var ms := messages.GetOr([]);
    Element("chat-history", [], seq(|ms|, i requires 0 <= i < |ms| => MessageLine(ms[i])), None)
  }

  // Reading the array props back out of the tree

  /** The leading run of childless `tag` elements that carry raw HTML, as their payloads. */
  function RawItems(tag: string, nodes: seq<Node>): seq<string> {
    if nodes != [] && nodes[0].Element? && nodes[0].tag == tag && nodes[0].attrs == []
      && nodes[0].children == [] && nodes[0].rawHtml.Some?
    then [nodes[0].rawHtml.value] + RawItems(tag, nodes[1..])
    else []
  }

  lemma {:induction false} RawItemsPrefix(tag: string, xs: seq<string>, nodes: seq<Node>)
    requires |nodes| >= |xs|
    requires forall i :: 0 <= i < |xs| ==> nodes[i] == Element(tag, [], [], Some(xs[i]))
    ensures RawItems(tag, nodes) == xs + RawItems(tag, nodes[|xs|..])
  {
    if xs != [] {
      RawItemsPrefix(tag, xs[1..], nodes[1..]);
      assert nodes[1..][|xs[1..]|..] == nodes[|xs|..];
      assert [xs[0]] + xs[1..] == xs;
    }
  }

  /** The instruction strings can be read back, in order and unchanged, ahead of the children. */
  lemma InstructionsReadBack(instructions: Option<seq<string>>, children: seq<Node>)
    ensures RawItems("instruction", Instructions(instructions, children).children)
         == instructions.GetOr([]) + RawItems("instruction", children)
  {
    var xs := instructions.GetOr([]);
    RawItemsPrefix("instruction", xs, Instructions(instructions, children).children);
  }

  /** The example strings can be read back, in order and unchanged, ahead of the children. */
  lemma ExamplesReadBack(examples: Option<seq<string>>, children: seq<Node>)
    ensures RawItems("example", Examples(examples, children).children)
         == examples.GetOr([]) + RawItems("example", children)
  {
    var xs := examples.GetOr([]);
    RawItemsPrefix("example", xs, Examples(examples, children).children);
  }

  /** The entry a `message` line stands for, if `n` is one. */
  function ReadMessage(n: Node): Option<Message> {
    if n.Element? && n.tag == "message" && n.attrs == [] && n.rawHtml.None? && |n.children| == 3
      && n.children[0].Text? && n.children[1] == Text(": ") && n.children[2].Text?
    then
      match Json.Unquote(n.children[2].text)
      case Some(content) => Some(Message(n.children[0].text, content))
      case None => None
    else None
  }

  function ReadMessages(nodes: seq<Node>): Option<seq<Message>> {
    if nodes == [] then Some([])
    else match (ReadMessage(nodes[0]), ReadMessages(nodes[1..]))
      case (Some(m), Some(ms)) => Some([m] + ms)
      case _ => None
  }

  lemma {:induction false} ReadMessageLines(ms: seq<Message>, nodes: seq<Node>)
    requires |nodes| == |ms|
    requires forall i :: 0 <= i < |ms| ==> nodes[i] == MessageLine(ms[i])
    ensures ReadMessages(nodes) == Some(ms)
  {
    if ms != [] {
      Json.UnquoteQuote(ms[0].content);
      ReadMessageLines(ms[1..], nodes[1..]);
      assert [ms[0]] + ms[1..] == ms;
    }
  }

  /** Every entry of the chat history, role and content, can be read back from the tree. */
  lemma ChatHistoryReadBack(messages: Option<seq<Message>>)
    ensures ReadMessages(ChatHistory(messages).children) == Some(messages.GetOr([]))
  {
    ReadMessageLines(messages.GetOr([]), ChatHistory(messages).children);
  }

  /** Chat histories that differ in any role, content or order give different trees. */
  lemma ChatHistoryInjective(a: seq<Message>, b: seq<Message>)
    requires ChatHistory(Some(a)) == ChatHistory(Some(b))
    ensures a == b
  {
    ChatHistoryReadBack(Some(a));
    ChatHistoryReadBack(Some(b));
  }

  /** A one-message history renders the line `user: "Hello!"`. */
  lemma HelloHistory()
    ensures ChatHistory(Some([Message("user", "Hello!")])).children
         == [Element("message", [], [Text("user"), Text(": "), Text("\"Hello!\"")], None)]
  {
    var m := Message("user", "Hello!");
    var r := ChatHistory(Some([m]));
    assert |r.children| == 1 && r.children[0] == MessageLine(m);
    Json.QuotePlain("Hello!");
    assert Json.Quote("Hello!") == "\"Hello!\"";
  }

  /** An example string is carried byte for byte, with nothing escaped. */
  lemma ExampleVerbatim()
    ensures Examples(Some(["X reduced latency by 40%"]), []).children
         == [Element("example", [], [], Some("X reduced latency by 40%"))]
  {
  }

  // The components as registry entries: the export name and a props bundle

  datatype Props = Props(
    children: seq<Node>,
    title: Option<string>,
    format: Option<string>,
    instructions: Option<seq<string>>,
    examples: Option<seq<string>>,
    messages: Option<seq<Message>>,
    innerHtml: Option<string>)

  /** The names `components/prompt.tsx` exports. */
  const Exports: set<string> := {
    "Prompt", "Purpose", "Background", "Variables", "Data", "Tools", "Tool", "Instructions",
    "Instruction", "UserInput", "Example", "Examples", "InputFormat", "OutputFormat", "ChatHistory" }

  /** Every export name starts with a capital, as a JSX component name must. */
  lemma ExportsCapitalised()
    ensures forall n :: n in Exports ==> |n| > 0 && 'A' <= n[0] <= 'Z'
  {
  }

  /** Calls the export called `name` with the props it reads from `p`. */
  function Invoke(name: string, p: Props): (r: Option<Node>)
    ensures r.Some? <==> name in Exports
  {
    match name
    case "Prompt" => Some(Prompt(p.children))
    case "Purpose" => Some(Purpose(p.children))
    case "Background" => Some(Background(p.children))
    case "Variables" => Some(Variables(p.children))
    case "Data" => Some(Data(p.children, p.title))
    case "Tools" => Some(Tools(p.children, p.title))
    case "Tool" => Some(Tool(p.children, p.innerHtml))
    case "Instructions" => Some(Instructions(p.instructions, p.children))
    case "Instruction" => Some(Instruction(p.children, p.innerHtml))
    case "UserInput" => Some(UserInput(p.children))
    case "Example" => Some(Example(p.children))
    case "Examples" => Some(Examples(p.examples, p.children))
    case "InputFormat" => Some(InputFormat(p.children, p.title))
    case "OutputFormat" => Some(OutputFormat(p.children, p.title, p.format))
    case "ChatHistory" => Some(ChatHistory(p.messages))
    case _ => None
  }

  /**
   * Every export renders one element, except `Prompt`, which renders its
   * children bare; the element's tag is the kebab-case of the export's name,
   * so each name calls the component of that name.
   */
  lemma ExportTags(name: string, p: Props)
    requires name in Exports
    ensures Invoke(name, p).value.Element? <==> name != "Prompt"
    ensures name != "Prompt" ==> Invoke(name, p).value.tag == KebabCase(name)
  {
    if name == "Prompt" {
      assert Invoke(name, p) == Some(Prompt(p.children));
    } else if name in {"Purpose", "Background", "Variables", "UserInput", "Example"} {
      SectionTags(name, p);
    } else if name in {"Data", "Tools", "InputFormat", "OutputFormat"} {
      TitledTags(name, p);
    } else if name in {"Tool", "Instruction", "Instructions"} {
      RawHtmlTags(name, p);
    } else if name in {"Examples", "ChatHistory"} {
      ListTags(name, p);
    }
  }

  /** The exports that take only children. */
  lemma SectionTags(name: string, p: Props)
    requires name in {"Purpose", "Background", "Variables", "UserInput", "Example"}
    ensures Invoke(name, p).Some? && Invoke(name, p).value.Element?
    ensures Invoke(name, p).value.tag == KebabCase(name)
  {
    if name == "Purpose" {
      PurposeTag(p);
    } else if name == "Background" {
      BackgroundTag(p);
    } else if name == "Variables" {
      VariablesTag(p);
    } else if name == "UserInput" {
      UserInputTag(p);
    } else {
      ExampleTag(p);
    }
  }

  /** The exports with a `title` attribute. */
  lemma TitledTags(name: string, p: Props)
    requires name in {"Data", "Tools", "InputFormat", "OutputFormat"}
    ensures Invoke(name, p).Some? && Invoke(name, p).value.Element?
    ensures Invoke(name, p).value.tag == KebabCase(name)
  {
    if name == "Data" {
      DataTag(p);
    } else if name == "Tools" {
      ToolsTag(p);
    } else if name == "InputFormat" {
      InputFormatTag(p);
    } else {
      OutputFormatTag(p);
    }
  }

  /** The exports that carry raw HTML or build instructions from it. */
  lemma RawHtmlTags(name: string, p: Props)
    requires name in {"Tool", "Instruction", "Instructions"}
    ensures Invoke(name, p).Some? && Invoke(name, p).value.Element?
    ensures Invoke(name, p).value.tag == KebabCase(name)
  {
    if name == "Tool" {
      ToolTag(p);
    } else if name == "Instruction" {
      InstructionTag(p);
    } else {
      InstructionsTag(p);
    }
  }

  /** The exports that build a list from an array prop. */
  lemma ListTags(name: string, p: Props)
    requires name in {"Examples", "ChatHistory"}
    ensures Invoke(name, p).Some? && Invoke(name, p).value.Element?
    ensures Invoke(name, p).value.tag == KebabCase(name)
  {
    if name == "Examples" {
      ExamplesTag(p);
    } else {
      ChatHistoryTag(p);
    }
  }

  lemma PurposeTag(p: Props)
    ensures Invoke("Purpose", p).Some? && Invoke("Purpose", p).value.Element?
    ensures Invoke("Purpose", p).value.tag == KebabCase("Purpose")
  {
    KebabOf("Purpose", "purpose");
  }

  lemma BackgroundTag(p: Props)
    ensures Invoke("Background", p).Some? && Invoke("Background", p).value.Element?
    ensures Invoke("Background", p).value.tag == KebabCase("Background")
  {
    KebabOf("Background", "background");
  }

  lemma VariablesTag(p: Props)
    ensures Invoke("Variables", p).Some? && Invoke("Variables", p).value.Element?
    ensures Invoke("Variables", p).value.tag == KebabCase("Variables")
  {
    KebabOf("Variables", "variables");
  }

  lemma UserInputTag(p: Props)
    ensures Invoke("UserInput", p).Some? && Invoke("UserInput", p).value.Element?
    ensures Invoke("UserInput", p).value.tag == KebabCase("UserInput")
  {
    KebabOf("UserInput", "user-input");
  }

  lemma ExampleTag(p: Props)
    ensures Invoke("Example", p).Some? && Invoke("Example", p).value.Element?
    ensures Invoke("Example", p).value.tag == KebabCase("Example")
  {
    KebabOf("Example", "example");
  }

  lemma DataTag(p: Props)
    ensures Invoke("Data", p).Some? && Invoke("Data", p).value.Element?
    ensures Invoke("Data", p).value.tag == KebabCase("Data")
  {
    KebabOf("Data", "data");
  }

  lemma ToolsTag(p: Props)
    ensures Invoke("Tools", p).Some? && Invoke("Tools", p).value.Element?
    ensures Invoke("Tools", p).value.tag == KebabCase("Tools")
  {
    KebabOf("Tools", "tools");
  }

  lemma InputFormatTag(p: Props)
    ensures Invoke("InputFormat", p).Some? && Invoke("InputFormat", p).value.Element?
    ensures Invoke("InputFormat", p).value.tag == KebabCase("InputFormat")
  {
    KebabOf("InputFormat", "input-format");
  }

  lemma OutputFormatTag(p: Props)
    ensures Invoke("OutputFormat", p).Some? && Invoke("OutputFormat", p).value.Element?
    ensures Invoke("OutputFormat", p).value.tag == KebabCase("OutputFormat")
  {
    KebabOf("OutputFormat", "output-format");
  }

  lemma ToolTag(p: Props)
    ensures Invoke("Tool", p).Some? && Invoke("Tool", p).value.Element?
    ensures Invoke("Tool", p).value.tag == KebabCase("Tool")
  {
    KebabOf("Tool", "tool");
  }

  lemma InstructionTag(p: Props)
    ensures Invoke("Instruction", p).Some? && Invoke("Instruction", p).value.Element?
    ensures Invoke("Instruction", p).value.tag == KebabCase("Instruction")
  {
    KebabOf("Instruction", "instruction");
  }

  lemma InstructionsTag(p: Props)
    ensures Invoke("Instructions", p).Some? && Invoke("Instructions", p).value.Element?
    ensures Invoke("Instructions", p).value.tag == KebabCase("Instructions")
  {
    KebabOf("Instructions", "instructions");
  }

  lemma ExamplesTag(p: Props)
    ensures Invoke("Examples", p).Some? && Invoke("Examples", p).value.Element?
    ensures Invoke("Examples", p).value.tag == KebabCase("Examples")
  {
    KebabOf("Examples", "examples");
  }

  lemma ChatHistoryTag(p: Props)
    ensures Invoke("ChatHistory", p).Some? && Invoke("ChatHistory", p).value.Element?
    ensures Invoke("ChatHistory", p).value.tag == KebabCase("ChatHistory")
  {
    KebabOf("ChatHistory", "chat-history");
  }
}
