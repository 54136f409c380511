# mdx-prompt: prompt-tree construction in Dafny

mdx-prompt turns a prompt, written as MDX or as JSX, into markup for a large
language model. This project models how that prompt tree is built:

- the prompt components (`Purpose`, `Instructions`, `ChatHistory` and the
  others), each a pure mapping from its props to an element tree;
- the plain-HTML overrides (`p`, `ul`, `ol`, `li`), which drop paragraph and
  list wrappers and turn a list item into a `- ` line;
- the component registry and scope that `compileMDXPromptFile` hands to the
  MDX compiler, built by spreading three objects in turn.

The model stops at the element tree. React's serialiser, the MDX compiler and
the rehype formatter are separate libraries and are not modelled.

## Modules

- `wrappers.dfy` (`Wrappers`): `Option`. A prop left `undefined` is `None`,
  and `GetOr` applies a JavaScript default parameter.
- `markup.dfy` (`Markup`): the `Node` tree.
  - `Element(tag, attrs, children, rawHtml)`. Its `rawHtml` is the
    `dangerouslySetInnerHTML.__html` payload, which is emitted verbatim.
  - `Text` is a string child.
  - `Fragment` is an array of nodes that renders as its items.
  - `Flatten` gives the nodes a child list renders as.
  - `WellFormed` says no element has both raw HTML and children. React
    refuses to render an element that has both.
- `naming.dfy` (`Naming`): the kebab-case rule that turns an export name into its tag.
- `json.dfy` (`Json`): `JSON.stringify` on a string.
  - `Quote` follows ECMA-262's QuoteJSONString.
  - Its partner `Unquote` decodes string literals as section 7 of RFC 8259
    defines them.
- `prompt.dfy` (`PromptComponents`): one function per export of
  `src/components/prompt.tsx`.
  - `Invoke` dispatches an export name with a `Props` bundle.
  - `RawItems` and `ReadMessages` read the array props back out of a tree.
- `html.dfy` (`HtmlOverrides`): the `htmlComponents` object and what each
  override renders.
- `render.dfy` (`Render`): the namespace imports, the object spread
  `{...htmlComponents, ...promptComponents, ...components}` and the scope
  `{ data }`.

A JSX `children` prop is modelled as the list of child nodes. An absent
`children` is the empty list. A component's output is computed at once, not
deferred to render time as React does; the tree is the same either way.

`render.ts` imports `components/html` as a module namespace (`import * as
htmlComponents`). That module exports one binding, the object
`htmlComponents`. So the spread adds one key, `htmlComponents`, and never
binds `p`, `ul`, `ol` or `li`. The model keeps this behaviour as written
(`Render.HtmlTagsNotRegistered`). As a result the overrides take effect only
when a caller passes them in `components`.

`li` builds a template literal from `props.children`, so the model spells out
JavaScript's string conversion:
- a single child is passed on its own;
- several children are passed as an array and joined with commas;
- an element object becomes `[object Object]`;
- an absent child list becomes `undefined`, giving `- undefined`.

## Model

| member | source | states |
|---|---|---|
| PromptComponents.Prompt | src/components/prompt.tsx:86-88 | Prompt adds no element: it renders exactly what its children render, and it is well formed exactly when they are |
| PromptComponents.Purpose | src/components/prompt.tsx:104-106 | one `purpose` element, no attributes, no raw HTML, children as given; well formed iff the children are |
| PromptComponents.Background | src/components/prompt.tsx:123-125 | one `background` element, no attributes, children as given; well formed iff the children are |
| PromptComponents.Variables | src/components/prompt.tsx:142-144 | one `variables` element, no attributes, children as given; well formed iff the children are |
| PromptComponents.Data | src/components/prompt.tsx:162-170 | one `data` element with a single `title` attribute: 'You are provided with the following data:' when no title is given, the given title otherwise |
| PromptComponents.Tools | src/components/prompt.tsx:193-201 | one `tools` element with a single `title` attribute, defaulting to 'You are provided with the following tools:' |
| PromptComponents.Tool | src/components/prompt.tsx:216-224 | one `tool` element carrying the children and the raw-HTML payload; renderable iff it does not have both |
| PromptComponents.Instruction | src/components/prompt.tsx:269-277 | one `instruction` element carrying the children and the raw-HTML payload; renderable iff it does not have both |
| PromptComponents.Instructions | src/components/prompt.tsx:245-254 | an `instructions` element with one childless `instruction` per string, in order, whose raw HTML is that string verbatim, then the given children; an omitted array adds nothing |
| PromptComponents.InstructionsReadBack | src/components/prompt.tsx:245-254 | reading the leading raw-HTML `instruction` children gives back the instruction strings, unchanged and in order |
| PromptComponents.UserInput | src/components/prompt.tsx:291-293 | one `user-input` element, no attributes, children as given |
| PromptComponents.Example | src/components/prompt.tsx:309-311 | one `example` element, no attributes, children as given |
| PromptComponents.Examples | src/components/prompt.tsx:334-343 | an `examples` element with one childless `example` per string, in order, whose raw HTML is that string verbatim, then the given children; an omitted array adds nothing |
| PromptComponents.ExamplesReadBack | src/components/prompt.tsx:334-343 | reading the leading raw-HTML `example` children gives back the example strings, unchanged and in order |
| PromptComponents.ExampleVerbatim | src/components/prompt.tsx:334-343 | the example 'X reduced latency by 40%' is carried byte for byte as raw HTML |
| PromptComponents.InputFormat | src/components/prompt.tsx:360-368 | one `input-format` element with a single `title` attribute, defaulting to 'You are provided with the following inputs:' |
| PromptComponents.OutputFormat | src/components/prompt.tsx:386-400 | an `output-format` element whose title defaults to 'Your response should be formatted as:'; its body is the children, a single-space text, then the format string, which defaults to '' |
| PromptComponents.MessageLine | src/components/prompt.tsx:422-425 | a `message` element whose body is the role, ': ', then the JSON-quoted content |
| PromptComponents.ChatHistory | src/components/prompt.tsx:419-429 | a `chat-history` element with one `message` per entry, in order; absent messages give an empty container |
| PromptComponents.ChatHistoryReadBack | src/components/prompt.tsx:419-429 | every role and content, in order, can be read back from the rendered history |
| PromptComponents.ChatHistoryInjective | src/components/prompt.tsx:419-429 | histories that differ in any role, content or order render differently |
| PromptComponents.HelloHistory | src/components/prompt.tsx:422-425 | a single message from 'user' saying 'Hello!' renders the line `user: "Hello!"` |
| PromptComponents.Invoke | src/components/prompt.tsx:86-429 | a props bundle can be rendered under a name exactly when the module exports that name (ExportTags says which component it reaches) |
| PromptComponents.ExportTags | src/components/prompt.tsx:86-429 | every export renders an element except Prompt, and that element's tag is the kebab-case of the export's name (`UserInput` gives `user-input`), so each name reaches the component of the same name |
| Json.Quote | src/components/prompt.tsx:424 | the quoted content starts and ends with a quotation mark; each character becomes one to six characters, so the result is 2 + n to 2 + 6n characters long for content of length n |
| Json.UnquoteQuote | src/components/prompt.tsx:424 | decoding the quoted content gives back the content: JSON.stringify loses nothing |
| Json.QuoteInjective | src/components/prompt.tsx:424 | distinct contents are quoted differently |
| Json.QuotePrintable | src/components/prompt.tsx:424 | the quoted content starts and ends with a quotation mark and holds no character below U+0020, so newlines and tabs are visible escapes |
| Json.QuotePlain | src/components/prompt.tsx:424 | content without control characters, quotation marks or backslashes is quoted by adding the two quotation marks only |
| HtmlOverrides.HtmlComponents | src/components/html.tsx:5-10 | the override object has exactly the keys p, ul, ol and li, each bound to its own override |
| HtmlOverrides.Apply | src/components/html.tsx:6-9 | no override emits a wrapping element |
| HtmlOverrides.PassThrough | src/components/html.tsx:6-8 | p, ul and ol render exactly what their children render |
| HtmlOverrides.ListItemLine | src/components/html.tsx:9 | li renders one text node: '- ' followed by its children as a string |
| HtmlOverrides.ListItemOfText | src/components/html.tsx:9 | li of a single string starts with '- ', is two characters longer and ends with the string |
| Render.PromptNamespace | src/render.ts:5 | the prompt namespace has one key per export, bound to that export |
| Render.HtmlNamespace | src/render.ts:6 | the HTML namespace has the single key htmlComponents, bound to the override object |
| Render.Spread | src/render.ts:57-61 | an object spread keeps the keys of both objects, and the later object wins on a shared key |
| Render.Merge | src/render.ts:57-61 | the spread of three objects has the names of all three; each is bound by the caller if it has it, else by the prompt object, else by the HTML object |
| Render.MergedComponents | src/render.ts:57-61 | the compiler's components are htmlComponents, the prompt exports and the caller's names; the caller's entries win, an export the caller does not replace stays bound to that export, and so does htmlComponents |
| Render.MergePrecedence | src/render.ts:57-61 | each name is bound by the caller's entry if any, else by the prompt export, else by the HTML namespace; no other name is bound |
| Render.MergedKeys | src/render.ts:57-61 | the merged names are htmlComponents, the prompt exports and the caller's names |
| Render.CallerOverrides | src/render.ts:60 | a caller's component replaces the default of the same name |
| Render.PromptDefaultsKept | src/render.ts:59 | a prompt export the caller does not replace stays bound to that export |
| Render.HtmlNamespaceKept | src/render.ts:58 | unless the caller replaces it, htmlComponents stays bound to the override object |
| Render.HtmlTagsNotRegistered | src/render.ts:58 | p, ul, ol and li are registered exactly when the caller registers them |
| Render.CompileArguments | src/render.ts:55-66 | the compiler gets the template text unchanged, exactly the merged components, and a scope whose only name is data, bound to the caller's data |

## Left out

- Serialisation by `renderToStaticMarkup` and the `prettyPrompt` formatter (src/utils.ts) are left out. Both are foreign libraries, so the model stops at the element tree.
- Reading the template file, the MDX compile and the asynchronous plumbing of `renderMDX` and `renderMDXPromptFile` are left out. They are file I/O and a foreign compiler. `Render.CompileArguments` takes the file contents as a parameter.
- `src/index.ts` holds an older copy of the same merge. It is modelled once, from `render.ts`.
- React `key` props are left out. They steer reconciliation and never reach the output.
- The default component objects are Dafny values, so the merge cannot modify them. No separate lemma is needed for that.
- `src/cli.tsx`, `src/global.d.ts` and the build and test configuration are left out. They are a demo entry point, type declarations and tooling.
- Json.Quote: lone UTF-16 surrogates are not modelled, because a Dafny `char` is a Unicode scalar value. QuoteJSONString writes such a surrogate as a `\uXXXX` escape. `Unquote` rejects `\u` escapes of surrogates instead of pairing them.
- HtmlOverrides.ListItemLine: children that are numbers, booleans or `null` are not modelled. The model's children are nodes only.
- PromptComponents.Tool and PromptComponents.Instruction: a `children` prop set to an empty array, when written as the empty list, is not told apart from an absent one. React refuses the first when raw HTML is also set and accepts the second. A JSX `{[]}` child is the list `[Fragment([])]`, which is not `WellFormed`, so that form is refused as React refuses it.
- PromptComponents.ChatHistory: message roles and contents are strings. The source's types require that, but JavaScript does not enforce it.
