/**
 * The naming rule that ties each prompt export to the tag it renders:
 * `UserInput` becomes `user-input`.
 */
module Naming {
  predicate IsCapital(c: char) {
    'A' <= c <= 'Z'
  }

  function Lower(c: char): char {
    if IsCapital(c) then (c as int - 'A' as int + 'a' as int) as char else c
  }

  /**
   * The kebab-case of `name` from position `i` on: every letter in lower
   * case, and a `-` before each capital that does not start the name.
   */
  function KebabCase(name: string, i: nat := 0): string
    requires i <= |name|
    decreases |name| - i
  {
    if i == |name| then []
    else if IsCapital(name[i]) && i > 0 then
      "-" + [Lower(name[i])] + KebabCase(name, i + 1)
    else [Lower(name[i])] + KebabCase(name, i + 1)
  }

  /**
   * The same rule checked character by character: `tag` from position `j` on
   * spells the kebab-case of `name` from position `i` on.
   */
  predicate SpellsKebab(name: string, tag: string, i: nat, j: nat)
    requires i <= |name|
    decreases |name| - i
  {
    if i == |name| then j == |tag|
    else if IsCapital(name[i]) && i > 0 then
      j + 1 < |tag| && tag[j] == '-' && tag[j + 1] == Lower(name[i]) && SpellsKebab(name, tag, i + 1, j + 2)
    else
      j < |tag| && tag[j] == Lower(name[i]) && SpellsKebab(name, tag, i + 1, j + 1)
  }

  /** The check accepts exactly the kebab-case. */
  lemma {:induction false} SpellsKebabCase(name: string, tag: string, i: nat, j: nat)
    requires i <= |name| && j <= |tag|
    ensures SpellsKebab(name, tag, i, j) <==> tag[j..] == KebabCase(name, i)
    decreases |name| - i
  {
    if i < |name| {
      if IsCapital(name[i]) && i > 0 {
        if j + 1 < |tag| {
          SpellsKebabCase(name, tag, i + 1, j + 2);
          assert tag[j..] == [tag[j], tag[j + 1]] + tag[j + 2..];
        }
      } else if j < |tag| {
        SpellsKebabCase(name, tag, i + 1, j + 1);
        assert tag[j..] == [tag[j]] + tag[j + 1..];
      }
    }
  }

  /** A tag that passes the check is the kebab-case of the name. */
  lemma KebabOf(name: string, tag: string)
    requires SpellsKebab(name, tag, 0, 0)
    ensures KebabCase(name) == tag
  {
    SpellsKebabCase(name, tag, 0, 0);
    assert tag[0..] == tag;
  }
}
