/**
 * The component registry and scope that `compileMDXPromptFile` in `render.ts`
 * hands to the MDX compiler. Reading the file, compiling the template and
 * serialising the result are not part of this model.
 */
module Render {
  import opened Wrappers
  import PromptComponents
  import HtmlOverrides

  /** A value in the components object. */
  datatype Component =
    | Builtin(name: string)                                  // an export of components/prompt.tsx
    | OverrideTable(entries: map<string, HtmlOverrides.Override>) // the `htmlComponents` object
    | Supplied(id: nat)                                      // a caller's component, opaque here

  /** An object of components, keyed by the name a template uses for them. */
  type Registry = map<string, Component>

  /** `import * as promptComponents`: one key per export, bound to that export. */
  function PromptNamespace(): (m: Registry)
    ensures m.Keys == PromptComponents.Exports
    ensures forall n :: n in m ==> m[n] == Builtin(n)
  {
    map n | n in PromptComponents.Exports :: Builtin(n)
  }

  /**
   * `import * as htmlComponents`: the namespace of components/html.tsx, whose
   * only export is the object `htmlComponents`.
   */
  function HtmlNamespace(): (m: Registry)
    ensures m.Keys == {"htmlComponents"}
    ensures m["htmlComponents"] == OverrideTable(HtmlOverrides.HtmlComponents())
  {
    map["htmlComponents" := OverrideTable(HtmlOverrides.HtmlComponents())]
  }

  /** `{...base, ...over}`: a new object with the keys of both, where `over` wins on a shared key. */
  function Spread(base: Registry, over: Registry): (r: Registry)
    ensures r.Keys == base.Keys + over.Keys
    ensures forall k :: k in over ==> r[k] == over[k]
    ensures forall k :: k in base && k !in over ==> r[k] == base[k]
  {
    base + over
  }

  /**
   * `{...html, ...prompt, ...caller}`: every name of the three objects, bound
   * by the caller if it has the name, else by `prompt`, else by `html`.
   */
  function Merge(html: Registry, prompt: Registry, caller: Registry): (m: Registry)
    ensures m.Keys == html.Keys + prompt.Keys + caller.Keys
    ensures forall k :: k in caller ==> m[k] == caller[k]
    ensures forall k :: k in prompt && k !in caller ==> m[k] == prompt[k]
    ensures forall k :: k in html && k !in prompt && k !in caller ==> m[k] == html[k]
  {
    Spread(Spread(html, prompt), caller)
  }

  /**
   * The components passed to the compiler; spreading an absent `components`
   * adds nothing. The caller's entries win, then the prompt exports, then the
   * `htmlComponents` key.
   */
  function MergedComponents(components: Option<Registry>): (m: Registry)
    ensures m.Keys == {"htmlComponents"} + PromptComponents.Exports + components.GetOr(map[]).Keys
    ensures forall k :: k in components.GetOr(map[]) ==> m[k] == components.GetOr(map[])[k]
    ensures forall n :: n in PromptComponents.Exports && n !in components.GetOr(map[]) ==> m[n] == Builtin(n)
    ensures "htmlComponents" !in components.GetOr(map[]) ==>
      m["htmlComponents"] == OverrideTable(HtmlOverrides.HtmlComponents())
  {
    PromptComponents.ExportsCapitalised();
    assert "htmlComponents"[0] == 'h';
    Merge(HtmlNamespace(), PromptNamespace(), components.GetOr(map[]))
  }

  /**
   * Each name is bound by the last layer that has it: the caller's entry,
   * else the prompt export, else the HTML namespace entry, else nothing.
   */
  lemma MergePrecedence(html: Registry, prompt: Registry, caller: Registry, k: string)
    ensures var m := Merge(html, prompt, caller);
      && (k in m <==> k in html || k in prompt || k in caller)
      && (k in caller ==> m[k] == caller[k])
      && (k !in caller && k in prompt ==> m[k] == prompt[k])
      && (k !in caller && k !in prompt && k in html ==> m[k] == html[k])
  {
  }

  /** The merged names are the HTML namespace key, the prompt exports and the caller's names. */
  lemma MergedKeys(components: Option<Registry>)
    ensures MergedComponents(components).Keys
         == {"htmlComponents"} + PromptComponents.Exports + components.GetOr(map[]).Keys
  {
  }

  /** A caller's component replaces the default of the same name. */
  lemma CallerOverrides(components: Registry, name: string)
    requires name in components
    ensures MergedComponents(Some(components))[name] == components[name]
  {
  }

  /** A prompt export the caller does not replace stays bound to that export. */
  lemma PromptDefaultsKept(components: Option<Registry>, name: string)
    requires name in PromptComponents.Exports && name !in components.GetOr(map[])
    ensures MergedComponents(components)[name] == Builtin(name)
  {
  }

  /** Unless the caller replaces it, `htmlComponents` stays bound to the override object. */
  lemma HtmlNamespaceKept(components: Option<Registry>)
    requires "htmlComponents" !in components.GetOr(map[])
    ensures MergedComponents(components)["htmlComponents"] == OverrideTable(HtmlOverrides.HtmlComponents())
  {
    PromptComponents.ExportsCapitalised();
    assert "htmlComponents"[0] == 'h';
  }

  /**
   * The namespace spread registers the override object under one key, so
   * `p`, `ul`, `ol` and `li` are bound only if the caller binds them.
   */
  lemma HtmlTagsNotRegistered(components: Option<Registry>, tag: string)
    requires tag in HtmlOverrides.HtmlComponents()
    ensures tag in MergedComponents(components) <==> tag in components.GetOr(map[])
  {
    PromptComponents.ExportsCapitalised();
    assert 'a' <= tag[0] <= 'z';
    assert tag != "htmlComponents";
  }

  /** What the compiler is given: the template text, the merged components and the scope. */
  datatype CompileInput<D> = CompileInput(source: string, components: Registry, scope: map<string, Option<D>>)

  /** The arguments `compileMDXPromptFile` builds around the template text it has read. */
  function CompileArguments<D>(source: string, data: Option<D>, components: Option<Registry>): (r: CompileInput<D>)
    ensures r.source == source
    ensures r.scope.Keys == {"data"} && r.scope["data"] == data
    ensures r.components == MergedComponents(components)
    ensures r.components.Keys == {"htmlComponents"} + PromptComponents.Exports + components.GetOr(map[]).Keys
  {
    CompileInput(source, MergedComponents(components), map["data" := data])
  }
}
